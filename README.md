# Sound Sleep Studio — a verified model of its logic

Sound Sleep Studio is an iOS sleep aid. The phone plays calming sounds with
a sleep timer. It asks the paired watch to stream heart-rate samples, and it
stores each night as a `HeartRateSession` made up of `BpmRecord`s, with a
running minimum and maximum. This project models the app's state machines
and reductions in Dafny and proves what they promise. The screens themselves
(layout, charts, animation) are not modelled.

The modules follow the app's files:

- `PhoneController` (`heart_rate_controller.dfy`) is the phone-side relay and
  session aggregator.
  - `StartHeartRate` runs only when the watch is reachable. It deletes the
    first of today's stored sessions, inserts a new one, seeds it with one
    record of 70 and sends `{"command": "start"}`.
  - `StopHeartRate` closes the session, saves and sends `{"command": "stop"}`.
  - `DidReceiveMessage` turns a Double `"bpm"` entry into a new record of the
    current session and updates the running bounds.
  - The class invariant `Valid` says three things. The current session's
    bounds are exactly the least and greatest of its samples: seeded from the
    first sample, never from the seed 70 or a sentinel. The store holds no
    session twice. No record belongs to two stored sessions.
- `WatchSession` (`watch_session.dfy`) is the simpler relay. It only sends
  commands, mirrors the latest sample and re-activates after deactivation.
- `HeartRateSessionModel` (`heart_rate_session.dfy`) holds the two stored
  classes and the running-bound algebra (`RunningMin`, `RunningMax`). That
  algebra is checked against the independent definitions `Lowest` and
  `Highest`.
- `ModelStore` (`model_store.dfy`) is the SwiftData context. It has the
  stored sessions in store order, `fetch(...).first`, `delete` with the
  cascade rule of `bpmRecords`, `insert` and `save`.
- `Utilities` (`utilities.dfy`) has two parts.
  - `getMaxMinBpm` is a loop whose result is tied to a fold. The fold is
    proved order-independent and is related to the true minimum and maximum.
  - `formattedRangeText` is reduced to its choice of the earliest and latest
    session.
- `HomeViewModel` (`home_view.dfy`) covers three pieces.
  - `timerString`: Swift's truncating `/` and `%`, `%02d`, and a parser for
    the rendered text that proves the rendering loses nothing.
  - The 15-minute countdown.
  - `clamped(to:)`.
- `StopViewModel` (`stop_view.dfy`) covers the stopwatch and the
  completion-handler gate, which tears down at most once and only after both
  players finish. It also covers the teardown itself. The screen's
  `bpmManager` is the phone controller, so the teardown also closes and saves
  the current session.
- `HealthKitServiceModel` (`health_kit_service.dfy`) is the authorization
  state machine. It requests authorization automatically at most once.
- Shared abstractions:
  - `Transport` is `WCSession.default`: supported, reachable, activation,
    delegate and an outbox of sent messages.
  - `Timing` is a run loop of live repeating timers.
  - `Messages` is the `[String: Any]` payloads.
  - `Wrappers` is `Option`.

Conventions:

- Dates are integer seconds since the epoch.
- `Calendar.current.startOfDay` is the start of the UTC day.
- Doubles are `real`.
- `Date()` is a `now` parameter.
- `UUID()` is a generator of fresh identifiers.
- `DispatchQueue.main.async` runs its block at once.
- A timer's firing is an explicit `Tick` call, allowed only while the timer
  is live.

## Model

| member | source | states |
|---|---|---|
| Messages.PayloadKeys | SoundSleepStudio/Services/HeartRateController.swift:64 | `message["bpm"] as? Double` (like `message["status"] as? String`) depends on its own key only: another entry never changes it; a Double (String) under the key is read back, any other value or no entry reads as absent |
| Messages.SampleRoundTrip | SoundSleepStudio/Services/WatchSession.swift:44 | `["bpm": v]` decodes to v; the start and stop commands carry no sample; a sample carries no status |
| Messages.BpmAfterAllIsLastSample | SoundSleepStudio/Services/WatchSession.swift:44-47 | after any stream of messages the latest value is that of the last sample in it, or the initial value if there was none |
| Transport.WCSession.constructor | SoundSleepStudio/Services/WatchSession.swift:17 | a session starts inactive, with no delegate and nothing sent |
| Transport.WCSession.Activate | SoundSleepStudio/Services/HeartRateController.swift:22 | activation leaves the session active and is counted |
| Transport.WCSession.SendMessage | SoundSleepStudio/Services/HeartRateController.swift:47-48 | a sent message is appended to the outbox, nothing else is |
| Transport.WCSession.Deactivate | SoundSleepStudio/Services/WatchSession.swift:63 | the platform's deactivation leaves the session inactive |
| Transport.WCSession.SetReachable | SoundSleepStudio/Services/HeartRateController.swift:34 | the peer's reachability as the relays read it |
| Timing.RunLoop.constructor | SoundSleepStudio/Views/HomeView.swift:112 | no timer is live at first |
| Timing.RunLoop.Schedule | SoundSleepStudio/Views/HomeView.swift:282 | a scheduled timer is new and live, and no other timer changes |
| Timing.RunLoop.Invalidate | SoundSleepStudio/Views/HomeView.swift:281 | an invalidated timer is no longer live, and no other timer changes |
| HeartRateSessionModel.UuidGenerator.constructor | SoundSleepStudio/Model/HeartRateSession.swift:12 | no identifier has been handed out yet |
| HeartRateSessionModel.UuidGenerator.Fresh | SoundSleepStudio/Model/HeartRateSession.swift:12 | each identifier differs from every earlier one |
| HeartRateSessionModel.HeartRateSession.constructor | SoundSleepStudio/Model/HeartRateSession.swift:12-25 | a new session has a fresh id and the given start, no records, and no end date, bounds or resting time |
| HeartRateSessionModel.BpmRecord.constructor | SoundSleepStudio/Model/HeartRateSession.swift:34-38 | a record stores timestamp, value and session, the session defaulting to none |
| HeartRateSessionModel.HeartRateSession.AddSample | SoundSleepStudio/Services/HeartRateController.swift:71-76 | the record is appended, the bounds become `min(minBpm ?? v, v)` and `max(maxBpm ?? v, v)`, and the bounds stay exactly those of the samples after the seed; end date and resting time are untouched |
| HeartRateSessionModel.Lowest | SoundSleepStudio/Services/HeartRateController.swift:73-74 | the reference minimum: an element that is at most every element |
| HeartRateSessionModel.Highest | SoundSleepStudio/Services/HeartRateController.swift:75-76 | the reference maximum: an element that is at least every element |
| HeartRateSessionModel.RunningMinIsLowest | SoundSleepStudio/Services/HeartRateController.swift:73-74 | updating by `min(minBpm ?? v, v)` gives the least of all samples so far |
| HeartRateSessionModel.RunningMaxIsHighest | SoundSleepStudio/Services/HeartRateController.swift:75-76 | updating by `max(maxBpm ?? v, v)` gives the greatest of all samples so far |
| HeartRateSessionModel.SamplesAppend | SoundSleepStudio/Services/HeartRateController.swift:71 | appending a record after the seed appends its value to the samples |
| HeartRateSessionModel.RunningBoundsMonotone | SoundSleepStudio/Services/HeartRateController.swift:73-76 | the minimum never rises, the maximum never falls, and the minimum stays at most the maximum |
| HeartRateSessionModel.SeedOnly | SoundSleepStudio/Services/HeartRateController.swift:45-46 | a session holding only the seed 70 has no bounds, as the invariant requires |
| HeartRateSessionModel.SeededAppend | SoundSleepStudio/Services/HeartRateController.swift:68-76 | the receive step keeps the invariant: the bounds stay the least and greatest of the samples, the seed excluded |
| ModelStore.FirstFrom | SoundSleepStudio/Services/HeartRateController.swift:36-39 | the fetch's `.first`: the first stored session started at or after the cut-off, or none when none is |
| ModelStore.WithoutAt | SoundSleepStudio/Services/HeartRateController.swift:40 | in a store without duplicates, deleting a stored session removes exactly its slot |
| ModelStore.WithoutAbsent | SoundSleepStudio/Services/HeartRateController.swift:40 | deleting a session that is not stored changes nothing |
| ModelStore.RemoveAtKeepsValid | SoundSleepStudio/Model/HeartRateSession.swift:16-17 | removing a session keeps the store free of duplicates and shared records, and removes exactly its records (the cascade) |
| ModelStore.CountFromAppend | SoundSleepStudio/Services/HeartRateController.swift:37 | the number of sessions started since the cut-off adds up over concatenation |
| ModelStore.CountFromNone | SoundSleepStudio/Services/HeartRateController.swift:39 | when the fetch finds nothing, no session started since the cut-off |
| ModelStore.ReplaceFirstFromCount | SoundSleepStudio/Services/HeartRateController.swift:35-41 | the delete removes one of today's sessions when there is one and none otherwise |
| ModelStore.DailyReplacement | SoundSleepStudio/Services/HeartRateController.swift:35-43 | after delete-then-insert, today's sessions number as before, and at least one |
| ModelStore.AppendKeepsDisjoint | SoundSleepStudio/Services/HeartRateController.swift:71 | appending a new record to one session keeps the records of stored sessions disjoint |
| ModelStore.ModelContext.constructor | SoundSleepStudio/Services/HeartRateController.swift:15 | an empty store, never saved |
| ModelStore.ModelContext.Delete | SoundSleepStudio/Services/HeartRateController.swift:40 | the session leaves the store with all its records, and every other record stays |
| ModelStore.ModelContext.Insert | SoundSleepStudio/Services/HeartRateController.swift:43 | a session not yet stored is added at the end |
| ModelStore.ModelContext.Save | SoundSleepStudio/Services/HeartRateController.swift:56 | one save is counted |
| PhoneController.StartOfDay | SoundSleepStudio/Services/HeartRateController.swift:35 | a day boundary at or before the instant and less than a day before it |
| PhoneController.HeartRateController.constructor | SoundSleepStudio/Services/HeartRateController.swift:18-27 | the controller becomes the delegate and activates exactly when the transport is supported; `bpm` is 0 |
| PhoneController.HeartRateController.SetContext | SoundSleepStudio/Services/HeartRateController.swift:29-31 | the context is set and the invariant kept |
| PhoneController.HeartRateController.StartHeartRate | SoundSleepStudio/Services/HeartRateController.swift:33-51 | unreachable: nothing changes and nothing is sent. Reachable: today's first session is deleted, a new session becomes current and is stored, it holds just the seed 70 with no bounds and no resting time, and exactly one start command is sent. The save count never changes |
| PhoneController.HeartRateController.BeginSession | SoundSleepStudio/Services/HeartRateController.swift:42-46 | the new session is inserted, becomes current and gets the seed record, with no bounds or resting time, keeping the invariant; the save count is unchanged |
| PhoneController.HeartRateController.DeleteTodaySession | SoundSleepStudio/Services/HeartRateController.swift:35-41 | only the first session started today is deleted, with its records |
| PhoneController.HeartRateController.StopHeartRate | SoundSleepStudio/Services/HeartRateController.swift:53-60 | callable in any state, it keeps the invariant, and it satisfies `StoppedAt(now)`. Reachable: the current session gets its end date, one save happens and one stop command is sent. Unreachable: nothing changes. Stored sessions, records, bounds and `reachedRestingAt` never change |
| PhoneController.HeartRateController.DidReceiveMessage | SoundSleepStudio/Services/HeartRateController.swift:62-79 | a Double `"bpm"` v becomes `bpm`. With a current session, exactly one new record (value v, this session) is appended, the earlier ones are kept, and the bounds are updated from `?? v`. Any other message changes nothing. The end date and `reachedRestingAt` never change |
| WatchSession.HeartRateController.constructor | SoundSleepStudio/Services/WatchSession.swift:15-24 | delegate set and activated only when supported; `bpm` starts at 0 |
| WatchSession.HeartRateController.StartHeartRate | SoundSleepStudio/Services/WatchSession.swift:26-33 | one start command when reachable, nothing otherwise |
| WatchSession.HeartRateController.StopHeartRate | SoundSleepStudio/Services/WatchSession.swift:35-40 | one stop command when reachable, nothing otherwise |
| WatchSession.HeartRateController.DidReceiveMessage | SoundSleepStudio/Services/WatchSession.swift:42-52 | a Double `"bpm"` entry sets `bpm`; a status, or anything else, leaves it |
| WatchSession.HeartRateController.SessionDidBecomeInactive | SoundSleepStudio/Services/WatchSession.swift:59-62 | the session is active again |
| WatchSession.HeartRateController.SessionDidDeactivate | SoundSleepStudio/Services/WatchSession.swift:63-66 | the session is active again |
| WatchSession.DeactivationRecovers | SoundSleepStudio/Services/WatchSession.swift:63-66 | a deactivation followed by its callback leaves the session active |
| Utilities.Trunc | SoundSleepStudio/Utilities/Utilities.swift:30 | `Int(x)` rounds toward zero |
| Utilities.TruncMonotone | SoundSleepStudio/Utilities/Utilities.swift:30 | truncation preserves order |
| Utilities.TruncOfWhole | SoundSleepStudio/Utilities/Utilities.swift:24-25 | the sentinels convert to 1000 and -1000 |
| Utilities.FoldMin | SoundSleepStudio/Utilities/Utilities.swift:26-27 | the fold is at most the start and every input, and is one of them |
| Utilities.FoldMax | SoundSleepStudio/Utilities/Utilities.swift:26-28 | the fold is at least the start and every input, and is one of them |
| Utilities.LeastIsUnique | SoundSleepStudio/Utilities/Utilities.swift:27 | a lower bound of the start and the inputs that is one of them is unique, whatever the order |
| Utilities.GreatestIsUnique | SoundSleepStudio/Utilities/Utilities.swift:28 | an upper bound of the start and the inputs that is one of them is unique, whatever the order |
| Utilities.FoldOrderFree | SoundSleepStudio/Utilities/Utilities.swift:26-29 | the result does not depend on the order of the sessions |
| Utilities.SessionOrderFree | SoundSleepStudio/Utilities/Utilities.swift:26-29 | any two fetches holding the same sessions, in any order or with repeats, give the same minimum and maximum |
| Utilities.FoldIsLowest | SoundSleepStudio/Utilities/Utilities.swift:26-29 | for non-empty input the fold is the true minimum (maximum), unless the sentinel lies beyond it |
| Utilities.GetMaxMinBpm | SoundSleepStudio/Utilities/Utilities.swift:21-31 | the loop computes, from the sentinels 1000 and -1000, the truncated folds of each session's `minBpm ?? 0` and `maxBpm ?? 0`, in fetch order |
| Utilities.MaxMinBpmBounds | SoundSleepStudio/Utilities/Utilities.swift:24-30 | no sessions give (1000, -1000); the minimum is at most, and the maximum at least, every session's value; each equals some session's value once one lies within the sentinel |
| Utilities.EarliestIndex | SoundSleepStudio/Utilities/Utilities.swift:12 | `min(by:)`: the first session with the least start date |
| Utilities.LatestIndex | SoundSleepStudio/Utilities/Utilities.swift:13 | `max(by:)`: the first session with the greatest start date, since a tie never replaces the running result |
| Utilities.RangeBounds | SoundSleepStudio/Utilities/Utilities.swift:11-19 | nothing exactly for no sessions; otherwise the least and greatest start dates, which are starts of sessions and coincide for one session |
| HomeViewModel.Quot | SoundSleepStudio/Views/HomeView.swift:269-271 | Swift's `/` on `Int` rounds toward zero: `a - q*b` has the sign of `a` and is smaller than `b` in magnitude |
| HomeViewModel.Rem | SoundSleepStudio/Views/HomeView.swift:269-271 | Swift's `%` on `Int`: the remainder takes the dividend's sign and is smaller than the divisor in magnitude |
| HomeViewModel.QuotRemDivision | SoundSleepStudio/Views/HomeView.swift:269-271 | quotient times divisor plus remainder is the dividend, for every dividend |
| HomeViewModel.QuotRemNegate | SoundSleepStudio/Views/HomeView.swift:269-271 | negating the dividend negates quotient and remainder |
| HomeViewModel.SplitSeconds | SoundSleepStudio/Views/HomeView.swift:269-271 | a non-negative count has one split into hours, minutes 0..59 and seconds 0..59, which the fields find |
| HomeViewModel.FieldsRecompose | SoundSleepStudio/Views/HomeView.swift:269-271 | `h*3600 + m*60 + s` is the count; for s >= 0 the minutes and seconds are 0..59 and hours appear exactly from 3600 on |
| HomeViewModel.Digits | SoundSleepStudio/Views/HomeView.swift:273 | decimal digits denoting the number, one digit exactly below 10, and no leading zero |
| HomeViewModel.Pad2 | SoundSleepStudio/Views/HomeView.swift:273-275 | `%02d`: at least two digits, exactly two below 100, denoting the number; a negative number starts with a minus sign |
| HomeViewModel.TimerStringRoundTrip | SoundSleepStudio/Views/HomeView.swift:268-277 | reading the rendered text gives back three fields from one hour on and two below, and the count itself |
| HomeViewModel.CountdownRun | SoundSleepStudio/Views/HomeView.swift:283-289 | from N, k <= N ticks leave N - k running and tick N + 1 stops it at 0 |
| HomeViewModel.HomeView.constructor | SoundSleepStudio/Views/HomeView.swift:112-116 | 15 minutes set and left, not running, no timer |
| HomeViewModel.HomeView.StartTimer | SoundSleepStudio/Views/HomeView.swift:278-282 | reset to the set duration and running; the previous timer is invalidated and a fresh one is the only live timer |
| HomeViewModel.HomeView.Tick | SoundSleepStudio/Views/HomeView.swift:283-289 | one countdown step; at 0 the timer is invalidated and cleared and the countdown stops; the seconds never go negative |
| HomeViewModel.Clamped | SoundSleepStudio/Views/HomeView.swift:315-319 | the result lies in the range, is the value itself when it already does, and is the nearer end otherwise |
| StopViewModel.Player.constructor | SoundSleepStudio/Views/StopView.swift:19-20 | a player starts without a completion handler |
| StopViewModel.Player.Stop | SoundSleepStudio/Views/StopView.swift:130-131 | a stopped player does not play |
| StopViewModel.StopwatchTickAdvances | SoundSleepStudio/Views/StopView.swift:113-118 | a tick keeps the seconds in 0..59 and adds exactly one second to `minutes*60 + seconds` |
| StopViewModel.StopwatchShowsElapsed | SoundSleepStudio/Views/StopView.swift:109-118 | after k ticks from 0:00 the stopwatch shows k seconds |
| StopViewModel.CompletionGateOnce | SoundSleepStudio/Views/StopView.swift:85-105 | whatever the order and repetition of completions, the teardown runs exactly once if both players finished and never otherwise, and leaves no handler installed |
| StopViewModel.StopView.constructor | SoundSleepStudio/Views/StopView.swift:11-21 | stopwatch at 0:00, no timer, no flags, no handlers installed |
| StopViewModel.StopView.SetupView | SoundSleepStudio/Views/StopView.swift:70-78 | the stopwatch restarts; handlers are installed on the first call only and left alone afterwards |
| StopViewModel.StopView.Cleanup | SoundSleepStudio/Views/StopView.swift:80-83 | the view's timer is invalidated and cleared; a second call changes nothing |
| StopViewModel.StopView.SetupCompletionHandlers | SoundSleepStudio/Views/StopView.swift:85-99 | each player gets the handler that sets its own flag |
| StopViewModel.StopView.StartTimer | SoundSleepStudio/Views/StopView.swift:107-120 | 0:00 and a fresh live timer; an earlier timer stays live |
| StopViewModel.StopView.Tick | SoundSleepStudio/Views/StopView.swift:112-119 | one stopwatch step, one more second shown |
| StopViewModel.StopView.StopAndDismiss | SoundSleepStudio/Views/StopView.swift:122-138 | timer invalidated and cleared, both handlers cleared, both players stopped, one dismissal. The phone controller's stop runs once (`StoppedAt(now)`): end date, save and stop command when reachable |
| StopViewModel.StopView.CheckIfBothPlayersStopped | SoundSleepStudio/Views/StopView.swift:101-105 | the teardown runs exactly when both flags are set: it invalidates exactly the view's timer and stops the phone controller (`StoppedAt(now)`). Otherwise nothing changes, including the current session and the store |
| StopViewModel.StopView.PlaybackFinished | SoundSleepStudio/Views/StopView.swift:86-98 | a completion follows the gate step: the player's flag is set if its handler is installed. The teardown runs once both flags are set: it invalidates exactly the view's timer and stops the phone controller (`StoppedAt(now)`). Without a teardown, the timer, the live timers, the players, the outbox, the current session and the store are unchanged |
| HealthKitServiceModel.StepOutcomes | SoundSleepStudio/Services/HealthKitService.swift:26-45 | first not-determined check: one request and the flag lowered. Later not-determined, denied or unknown: not authorized, reading 0, check done. Authorized: fetch and observer started, check done. The completion sets `isAuthorized` to the outcome, zeroes the reading on failure and always marks the check done |
| HealthKitServiceModel.CheckCompleteStays | SoundSleepStudio/Services/HealthKitService.swift:42 | once the initial check is complete it stays complete under any events |
| HealthKitServiceModel.AutoRequestAtMostOnce | SoundSleepStudio/Services/HealthKitService.swift:119-136 | over any events, at most one automatic request, and it happens exactly when some check saw `notDetermined` |
| HealthKitServiceModel.HealthKitService.constructor | SoundSleepStudio/Services/HealthKitService.swift:15-24 | the initial values followed by one status check |
| HealthKitServiceModel.HealthKitService.RequestAuthorization | SoundSleepStudio/Services/HealthKitService.swift:26-29 | one request is made |
| HealthKitServiceModel.HealthKitService.CompleteAuthorization | SoundSleepStudio/Services/HealthKitService.swift:29-44 | the state becomes the completion step of the pure model |
| HealthKitServiceModel.HealthKitService.FetchLatestHeartRate | SoundSleepStudio/Services/HealthKitService.swift:100 | one fetch is started |
| HealthKitServiceModel.HealthKitService.SetupHeartRateObserver | SoundSleepStudio/Services/HealthKitService.swift:71 | one observer is started |
| HealthKitServiceModel.HealthKitService.CheckAuthorizationStatus | SoundSleepStudio/Services/HealthKitService.swift:119-152 | the state becomes the check step of the pure model for the reported status |

## Left out

- Utilities.MaxMinBpmBounds: "the minimum equals one of the sessions' values" holds only when some value is at most the sentinel 1000. Symmetrically, the maximum equals one only when some value is at least -1000. Otherwise the sentinel itself is returned, and the contract says exactly that.
- StopViewModel.StopView.constructor: requires two distinct players. `StopView` is handed two players by its caller, and nothing in `StopView.swift` itself rules out the same player twice. With one shared player, the second handler would overwrite the first, and the teardown could never run; that case is not modelled.
- ModelStore.ModelContext.Delete: the stored records are not a separate collection. They are defined as the records reachable from stored sessions (`ModelStore.RecordsOf`). So removing a session removes its records by construction; the cascade rule is not modelled as a separate step.
- WatchConnectivity delivery, replies and activation results are not modelled. `session(_:activationDidCompleteWith:error:)` is empty in both relays. The phone controller's `sessionDidBecomeInactive` and `sessionDidDeactivate` are empty too, so neither becomes a member.
- A SwiftData `fetch` that throws (swallowed by `try?`) is not modelled, and neither is a failing `save`. The fetch has no sort descriptor, so its order is whatever order it returns. Store order stands in for that order.
- The calendar is UTC. A local time zone would only move the day boundary.
- Doubles are exact reals: no NaN, infinities or rounding. `Int(_:)` on a non-finite or out-of-range Double would trap, and that trap is not modelled.
- `print` logging is not modelled. That covers the `"status"` entry of the simpler relay and the authorization error messages.
- Date and string formatting is not modelled. That covers `formatted(.dateTime...)` in `formattedRangeText`, so the label is reduced to its two start dates. It also covers the locale of `String(format:)`, so `timerString` is built from `%02d` fields.
- Timing is reduced to events. `DispatchQueue.main.async` runs at once. The 0.1 s delay before `dismiss()` is replaced by counting the dismissal. Timer intervals are replaced by explicit `Tick` calls.
- Only the authorization flags of the HealthKit service are modelled. `startHeartRateQuery`, the queries of `fetchLatestHeartRate` and `setupHeartRateObserver`, background delivery and the samples they deliver are not. Starting a fetch or an observer is counted.
- StopViewModel.StopView.StopAndDismiss: `StopView.swift` types `bpmManager` as `HeartRateController`, and both relays declare a class by that name. The model makes it the phone controller, the one whose sessions the analytics screen charts. The command-only relay's stop sends the same stop command, without the end date and the save. The stop screen's contracts state the phone controller's step (`StoppedAt`). They do not restate that the controller's invariant is kept; that comes from `PhoneController.HeartRateController.StopHeartRate`, which keeps it from any state.
- The relationship between `HeartRateSession.bpmRecords` and `BpmRecord.session` is not modelled as SwiftData would infer it. SwiftData pairs the two as inverses even though no `inverse:` is written, and stores to-many relationships without an order. In the model, `session` is exactly what the record's initializer was given: nil for the seed record of a start, the current session for a received sample. `bpmRecords` is an array in append order. So how SwiftData's inverse maintenance interacts with the explicit append, including whether a record built with `session: currentSession` could show up twice, is not captured.
- Players are reduced to whether they play and the handler installed on them. Loading and playback of audio files are not modelled.
- Presentation code is not modelled: the heart-rate trace (`ECGWaveform`, `ecgAmplitude`, its animation timer), `BreathingAnimationView`, the sound picker and all view layout.
