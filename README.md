# Daytime service — Dafny model

The daytime service of the casa platform tells MQTT subscribers whether it is
day or night at a fixed location. On start it connects to the local broker,
reads its configuration, asks a solar library for today's sunrise and sunset,
shifts both inward by a safety offset (sunrise later, sunset earlier), picks
the next transition, and publishes three retained messages: the current
status, the next status and the time of the next transition. On stop it
settles its timer and closes the broker connection.

The model has three files:

- `wrappers.dfy` (module `Wrappers`): `Option` and `Result`.
- `transition.dfy` (module `Transition`): the transition decision `GetNext`,
  a pure function over the solar library's two answers, the offset and one
  instant `now`, proved equal to an independent reference selection
  `FirstAfter` ("the first adjusted boundary, in the order tried, strictly
  after now").
- `service.dfy` (module `Service`): the configuration-derived values (broker
  URL, offset, current status, startup messages) as functions, and the
  service object as the class `Daytime` whose `Start` and `Stop` methods
  update its fields. The broker side is represented by two fields of that
  class: `published`, the log of every publish handed to the client with
  whether the broker took it, and `closed`.

Instants and durations are integers counting nanoseconds; durations are
Go's int64, and the offset conversion from minutes wraps around modulo 2^64
as Go's int64 multiplication does. The adjusted sunset adds the int64
negation of the offset, as `sunset.Add(-d.offset)` does, so the least int64
offset (2^52 minutes) moves sunset earlier rather than later. Statuses are
the strings the source compares: `"Daytime"`, `"Nighttime"`, and `""` when
no transition lies ahead today.

Inputs that replace what the source reads from outside:
the configuration (`Config`), the broker's answer to a connection attempt
(`dial`), the solar library's sunrise and sunset answers, the clock (`now`),
the rendering of an instant as text (`render`), the set of publish attempts
the broker refuses (`rejected`), and the result of closing the client.

The model follows the code as written, including three behaviours a reader may not expect:

- The timer is never armed: `Start` returns before the block that would arm
  it (daytime.go:94), so `Stop` never waits (`Service.Lifecycle`).
- A sunset failure is returned even when the adjusted sunrise lies ahead,
  because sunset is computed before either boundary is compared.
- When neither adjusted boundary lies ahead, `getNext` returns no error and
  no time, and `Start` then dereferences the missing time (daytime.go:77).
  The model gives `Start` an explicit outcome for this, `NilTimePanic`. No
  publish has happened by then, but `nextStatus` has already been set to `""`.

## Model

| member | source | states |
|---|---|---|
| Transition.GetNext | daytime.go:121-163 | a sunrise failure is returned wrapped with "Unable to calculate sunrise" before sunset is consulted; a sunset failure is returned wrapped with "Unable to calculate sunset" when sunrise succeeded; with both known the result equals the reference selection `FirstAfter` over the adjusted boundaries |
| Transition.Boundaries | daytime.go:128-138 | the candidates in the order tried: Daytime at sunrise plus the offset, then Nighttime at sunset plus the int64 negation of the offset, which is sunset minus the offset except at the least int64 offset |
| Transition.Negate64 | daytime.go:138 | Go's int64 negation: congruent to minus the input modulo 2^64, equal to it except at the least int64, which is its own negation |
| Transition.FirstAfter | daytime.go:143-161 | reference selection: no instant exactly when every candidate is at or before now (and then the status is ""); otherwise the instant and status of a candidate strictly after now all of whose predecessors in the order tried are at or before now |
| Transition.Wrap64 | daytime.go:57 | two's-complement wrap into int64: congruent to the input modulo 2^64, and the identity on int64 values |
| Transition.NextIsAheadOfNow | daytime.go:143-161 | for all inputs, a successful decision carries an instant exactly when its status is Daytime or Nighttime, has status "" exactly when it carries none, and its instant is strictly after now |
| Transition.DecisionCases | daytime.go:148-158 | adjusted sunrise after now gives Daytime at sunrise+offset; otherwise adjusted sunset after now gives Nighttime at the adjusted sunset; otherwise "" with no time and no error |
| Transition.FailureCarriesNoDecision | daytime.go:123-136 | the decision fails exactly when either solar answer failed, and the error's context names the event that failed first |
| Transition.EarliestBoundaryAhead | daytime.go:128-158 | when the adjusted sunrise is no later than the adjusted sunset, the chosen instant is the earliest adjusted boundary strictly after now, and nothing is chosen only when both are at or before now |
| Transition.InvertedBoundariesPreferSunrise | daytime.go:148-152 | for all inputs where the adjusted sunset is ahead of now and earlier than the adjusted sunrise, the decision is still Daytime at the adjusted sunrise |
| Transition.LeastOffsetPullsSunsetEarlier | daytime.go:138 | with the least int64 offset and sunrise and sunset at or before now, the decision is "" with no time, because the negation of that offset wraps to itself |
| Service.BrokerUrl | daytime.go:35-41 | the URL starts with "tcp://", ends with "127.0.0.1:1883", and has nothing between them exactly when no user is configured |
| Service.CredentialsRoundTrip | daytime.go:36-41 | splitting the URL's user information at its first ':' gives exactly the configured user and password (none when no user is set), provided the user holds no ':' |
| Service.ColonInUserIsAmbiguous | daytime.go:36-38 | user "a:b" with password "c" and user "a" with password "b:c" produce the same URL |
| Service.ConfiguredOffset | daytime.go:54-58 | one hour when the offset is unset; otherwise n minutes of 60·10^9 ns, congruent modulo 2^64 and exact whenever the product fits in int64 |
| Service.OffsetMinutesRange | daytime.go:57 | every offset within ±153722867 minutes is exactly n·60·10^9 ns; 153722868 minutes wraps to a negative duration |
| Service.LeastOffsetIsConfigurable | daytime.go:57 | an offset of 2^52 minutes multiplies out to the least int64 duration |
| Service.CurrentStatus | daytime.go:68-73 | the current status is Nighttime exactly when the next is Daytime, Daytime otherwise (including ""), and never equals the next status |
| Service.StartupMessages | daytime.go:81-86 | three messages, all retained, on the topics Status, Next/Status, Next/Time in that order, carrying the current status, the next status and the rendered time |
| Service.Attempts | daytime.go:87-92 | one attempt per message, in order, each delivered exactly when the broker does not refuse it, whatever happened to the earlier ones |
| Service.Daytime.constructor | daytime.go:20 | the zero-valued service: no client, no timer, not done, status "", offset 0, nothing published, not closed |
| Service.Daytime.PublishMessage | daytime.go:88 | appends one attempt to the publish log and changes nothing else |
| Service.Daytime.Start | daytime.go:34-94 | a refused connection returns its error and changes nothing; otherwise stores the client on the built URL, the offset, lat and lon; a decision failure is returned with no publish and `nextStatus` untouched; otherwise `nextStatus` is the decided status; with no time the outcome is the nil-time panic with no publish; with a time the log grows by exactly the three startup attempts and the outcome is success; the timer is never touched |
| Service.Daytime.StopTimer | daytime.go:166 | reports whether the timer was pending and leaves it not pending |
| Service.Daytime.Close | daytime.go:169 | marks the client closed and returns the broker's answer |
| Service.Daytime.Stop | daytime.go:165-170 | waits on the timer channel exactly when a timer exists, is not done and was not pending; stops a pending timer; always returns the close result when a client exists, and otherwise is the nil-client panic |
| Service.Lifecycle | daytime.go:94-170 | constructing, starting and stopping the service never waits on the timer; Stop closes whenever the connection was made; a successful start attempted exactly Status, Next/Status, Next/Time, all retained, each delivered exactly when not refused, with the current status the complement of the next |

## Left out

- The sunrise/sunset computation of the solar library: floating-point astronomy in code outside this repository; its two answers are inputs.
- `lat` and `lon` are stored as reals; their only use is as arguments to the solar library.
- The three separate reads of the clock in `getNext`: the model takes one `now` for the comparison.
- `.Local()` and `time.Time.String()`: a time-zone change does not affect instant comparison, and the rendering is an input function.
- Overflow of `time.Time.Add` for offsets near the int64 limits: instants are unbounded integers.
- MQTT client creation, the `Handle` callback, publishing and closing over the network: connection, publish and close results are inputs.
- Configuration reading through viper: the keys read are fields of `Config`.
- The delay `until` computed at daytime.go:77 is used only by the unreachable timer block; the model keeps only its nil dereference.
- The timer callback at daytime.go:95-117 (publish, recompute, `Reset`, the `timerDone` flag): unreachable after the return at daytime.go:94, and timer concurrency.
- Service.Daytime.Stop: `waited` records that the timer channel is read; blocking itself is not modelled (a timer made by `time.AfterFunc` has no channel, so the receive would never return).
- Service registration in `init`, `UseLogger` and all logging output.
