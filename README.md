# Smart-bin telemetry reconciliation, modelled in Dafny

This project models the reconciliation engine of a smart-waste dashboard.
The engine merges three sources of bin updates into one list of dustbins:

- a push channel, which gets INSERT and UPDATE events on the `bin_updates` table;
- a poll channel, which fetches the newest 20 rows on a timer;
- a manual trigger, which makes up an update.

On top of that list, the application runs:

- a liveness monitor for the sensor-fed bin 1001;
- a synthetic random walk for the other bins;
- a manual refresh;
- the fleet statistics, recomputed after every change.

The model has five modules:

- `Types` (`types.dfy`): the dustbin record, its status and category enums,
  the statistics record, the normalized update record, and the fill-to-status
  thresholds.
- `Dustbins` (`dustbins.dfy`): the eight-bin seed fleet and `CalculateStats`
  (critical count, average fill, efficiency score). These are pure functions.
- `Services` (`binservice.dfy`): the `BinService` class. Its fields are the
  subscriber registry, the poll timer, the per-bin deduplication table
  `lastUpdateTime`, the push subscription and the connection status. Its
  methods mutate them as the service does. The poll's gate is also specified
  as pure functions (`PollTable`, `Forwarded`), and the loop in
  `CheckForUpdates` is proved against them.
- `App` (`app.dfy`): the application's write side. The `AppState` class
  holds the list, the statistics, the live flag and the last live-update
  time. The map-style operations are functions. The synthetic step and the
  refresh are array loops.
- `Reconcile` (`reconcile.dfy`): the wiring between the two. It covers the
  subscription effect and its cleanup, and a poll tick carried through to
  the list. It also shows that the push path bypasses the poll's
  deduplication.

Other parts of the system are modelled as follows:

- **Time and randomness.** Times are integer milliseconds, and `now` is a
  parameter. The random draws are parameters too: the per-bin `Roll` of the
  synthetic step and the collection-count `draw` in 0..4.
- **Backing store.** Query results (`FetchResult`) and channel events
  (`BinUpdateRow`) are inputs.
- **Callbacks.** Callbacks are `Subscriber` tokens, compared by identity as
  `indexOf` compares them. A notification returns its calls as a log of
  `Delivery` values, and the `faulty` set names the callbacks that throw.
- **Outbound effects.** The channels passed to `removeChannel` and the timers
  passed to `clearInterval` are recorded in the `removedChannels` and
  `clearedTimers` fields.
- **Connection status.** `GetConnectionStatus` reads the `connectionStatus`
  field.

Behaviour of the code worth noting:

- Only the poll consults `lastUpdateTime`. The push INSERT and UPDATE
  handlers and `simulateUpdate` notify every subscriber directly, with no
  deduplication. `Reconcile.PushBypassesDedup` shows a polled record
  delivered again by push being reapplied and restamped, and an older record
  that the poll rejects but the push path applies.
- `stopRealtimeSubscription` and `stopPolling` never clear `lastUpdateTime`.
  `Reconcile.Unmount` keeps the table.
- `updateBinData` takes the fill level verbatim and does not clamp it. Only
  the synthetic step clamps.
- A status is not a function of fill in the seed data. Bin 1008 starts at 50
  and `normal`, while the thresholds give `warning`.
- The liveness reset writes `normal` and fill 0 and leaves the battery alone.

## Model

| member | source | states |
|---|---|---|
| Types.DeriveStatus | project/src/services/binService.ts:282-287 | critical iff fill >= 80, warning iff 50 <= fill < 80, normal iff fill < 50; never servicing |
| Types.OrIfFalsy | project/src/App.tsx:90 | JavaScript `x \|\| d`: the value when present and non-zero, otherwise the default |
| Dustbins.InitialDustbins | project/src/data/dustbins.ts:4-117 | the seed fleet has eight bins |
| Dustbins.SeedFleet | project/src/data/dustbins.ts:4-117 | ids are 1001..1008 in order and pairwise distinct; every fill and battery is in [0, 100]; bin 1001 starts at fill 0, battery 100, normal |
| Dustbins.SeedStatusDisagreesWithFill | project/src/data/dustbins.ts:103-116 | bin 1008 has fill 50 and status normal, while the fill thresholds give warning |
| Dustbins.CountCritical | project/src/data/dustbins.ts:122 | the critical count never exceeds the number of bins |
| Dustbins.CountCriticalIsMultiplicity | project/src/data/dustbins.ts:122 | the critical count equals the number of `critical` entries among the statuses |
| Dustbins.CountCriticalAfterReplace | project/src/data/dustbins.ts:122 | recounting after replacing one bin equals patching the old count by the two bins' marks |
| Dustbins.SumFillBounds | project/src/data/dustbins.ts:123 | fill levels in [0, 100] sum to a value in [0, 100 * n] |
| Dustbins.AverageFacts | project/src/data/dustbins.ts:123 | average times count is the sum; `avg > 70` iff `sum > 70 * count` |
| Dustbins.EfficiencyScore | project/src/data/dustbins.ts:129-132 | the score never exceeds 100; a fleet with no critical bin and average at most 70 scores 100; an all-critical fleet above 70 with 15 collections scores 30 |
| Dustbins.Average | project/src/data/dustbins.ts:123 | the average times the count is the fill sum; the average exceeds 70 iff the sum exceeds 70 * count |
| Dustbins.EfficiencyBounds | project/src/data/dustbins.ts:129-132 | the efficiency score lies in [30, 100] when critical <= total |
| Dustbins.EfficiencyPenaltyOnlyAbove70 | project/src/data/dustbins.ts:131 | the average affects the score only through the strict test avg > 70, and failing it never raises the score |
| Dustbins.EfficiencyMonotoneInCritical | project/src/data/dustbins.ts:131 | more critical bins never raise the score |
| Dustbins.CalculateStats | project/src/data/dustbins.ts:120-140 | critical count recomputed from the whole list; average times count equals the fill sum; average > 70 iff sum > 70 * count; collections in [15, 19]; score in [30, 100] and given by the efficiency formula |
| Dustbins.CalculateStatsCountsCritical | project/src/data/dustbins.ts:122 | the statistics' critical count is the number of `critical` statuses in the list, for every draw |
| Dustbins.SeedStats | project/src/App.tsx:14 | the seed fleet's statistics: 2 critical bins, average 48.5, score 97 when more than 15 collections are drawn, else 87 |
| Services.FromInsert | project/src/services/binService.ts:79-86 | an inserted row becomes an update with the same bin, fill, battery and status, stamped with its creation time |
| Services.FromUpdate | project/src/services/binService.ts:102-109 | an updated row becomes an update stamped with its update time |
| Services.SimulatedRecord | project/src/services/binService.ts:281-295 | the manual trigger's update: status from the fill thresholds, battery 100 when absent or 0, stamped `now` |
| Services.IndexOf | project/src/services/binService.ts:36 | -1 iff the callback is absent; otherwise its first position |
| Services.RemoveFirstAt | project/src/services/binService.ts:36-39 | unsubscribing splices out the first occurrence and keeps the order of the rest |
| Services.RemoveFirstAbsent | project/src/services/binService.ts:37 | unsubscribing an absent callback leaves the registry unchanged |
| Services.RemoveFirstMultiset | project/src/services/binService.ts:35-40 | unsubscribing removes exactly one registration of the callback if it has one, and none otherwise |
| Services.SubscribeUnsubscribeRoundTrip | project/src/services/binService.ts:31-41 | subscribing a new callback and unsubscribing it restores the registry; a second unsubscribe is a no-op |
| Services.UnsubscribeTwice | project/src/services/binService.ts:35-40 | for a callback registered at most once, unsubscribing twice is the same as once |
| Services.Broadcast | project/src/services/binService.ts:49-55 | one notification calls every subscriber in registration order with the same update |
| Services.Lookup | project/src/services/binService.ts:226 | a bin absent from the table counts as time 0; otherwise its recorded time |
| Services.Accepts | project/src/services/binService.ts:229 | a row passes iff its time is strictly above the bin's recorded time, or above 0 for an unseen bin |
| Services.PollTable | project/src/services/binService.ts:224-231 | the gate only adds or overwrites entries: every bin in the table before the poll is still in it |
| Services.BroadcastAllLength | project/src/services/binService.ts:224-245 | a sequence of notifications makes exactly one call per record per subscriber |
| Services.AcceptedIndices | project/src/services/binService.ts:224-245 | the forwarded positions are in range, strictly increasing, and are exactly the rows that pass the gate |
| Services.Forwarded | project/src/services/binService.ts:224-245 | a poll forwards at most as many updates as it fetched |
| Services.ForwardedSnoc | project/src/services/binService.ts:225-243 | one more row forwards that row iff it is newer than the bin's recorded time, and records its time on acceptance |
| Services.PollDeliveryBound | project/src/services/binService.ts:207-211 | with at most 20 fetched rows, one poll calls each subscriber at most 20 times |
| Services.PollTableMonotone | project/src/services/binService.ts:229-230 | recorded per-bin times never decrease |
| Services.PollTableCovers | project/src/services/binService.ts:224-231 | after a poll, each bin's recorded time is at least every time the batch held for it |
| Services.PollTableBound | project/src/services/binService.ts:224-231 | a time above the recorded time and above the batch's times for that bin stays above the recorded time |
| Services.PollTableOtherBins | project/src/services/binService.ts:224-231 | a bin with no row in the batch keeps its entry, or its absence, and its recorded time |
| Services.AcceptedIff | project/src/services/binService.ts:224-231 | a row is forwarded iff it is strictly newer than the bin's time before the poll (absent counts as 0) and than every earlier row of that bin in the batch |
| Services.NothingAccepted | project/src/services/binService.ts:229 | a batch where no row passes the gate leaves the table unchanged and forwards nothing |
| Services.RepollForwardsNothing | project/src/services/binService.ts:224-231 | polling the same batch again forwards nothing and leaves the table unchanged |
| Services.SingleRecordGate | project/src/services/binService.ts:225-231 | one record is forwarded iff strictly newer than the stored time; on acceptance the entry becomes its time, on rejection the table is unchanged; an identical timestamp is rejected |
| Services.NewestFirstForwardsNewest | project/src/services/binService.ts:207-245 | with a newest-first batch, a row is forwarded iff it is its bin's first row and newer than the stored time; forwarded bins are distinct, and each carries its bin's newest time in the batch |
| Services.ConnectionTransitions | project/src/services/binService.ts:118-127 | an error gives disconnected whatever the status; connected iff no error and SUBSCRIBED, or already connected and not CLOSED; CLOSED without an error gives disconnected from any state, connecting included; any other status keeps the state |
| Services.NextConnectionStatus | project/src/services/binService.ts:118-127 | the callback never enters connecting; the state changes only on an error, SUBSCRIBED or CLOSED; without an error SUBSCRIBED gives connected and CLOSED gives disconnected, from any state |
| Services.BinService.constructor | project/src/services/binService.ts:14-18 | empty registry, no timer, empty table, no subscription, disconnected |
| Services.BinService.GetConnectionStatus | project/src/services/binService.ts:361-363 | returns the current connection state without changing anything |
| Services.BinService.OnBinUpdate | project/src/services/binService.ts:31-32 | appends the callback at the end of the registry |
| Services.BinService.Unsubscribe | project/src/services/binService.ts:35-40 | the registry loses its first registration of the callback, if any |
| Services.BinService.NotifyUpdate | project/src/services/binService.ts:44-56 | every registered callback is called in order with the update, including those after one that throws |
| Services.BinService.StartRealtimeSubscription | project/src/services/binService.ts:59-67 | an existing subscription is removed first; the new one is recorded and the state becomes connecting |
| Services.BinService.OnSubscribeStatus | project/src/services/binService.ts:115-128 | the state becomes NextConnectionStatus of the old state, the status and the error flag |
| Services.BinService.OnInsertEvent | project/src/services/binService.ts:76-90 | notifies every subscriber of the inserted row without consulting the table |
| Services.BinService.OnUpdateEvent | project/src/services/binService.ts:99-113 | notifies every subscriber of the updated row, stamped with its update time, without consulting the table |
| Services.BinService.StopRealtimeSubscription | project/src/services/binService.ts:169-176 | a no-op with no subscription; otherwise removes the channel, clears it, and sets disconnected |
| Services.BinService.StartPolling | project/src/services/binService.ts:179-193 | a running timer is cleared first; the new timer is recorded |
| Services.BinService.StopPolling | project/src/services/binService.ts:195-201 | a no-op with no timer; otherwise clears the timer |
| Services.BinService.CheckForUpdates | project/src/services/binService.ts:204-250 | an error, a thrown exception or an empty result changes nothing and calls no one; otherwise the table becomes PollTable of the batch, and the subscribers receive exactly the forwarded updates in batch order |
| Services.BinService.SimulateUpdate | project/src/services/binService.ts:281-299 | notifies every subscriber of the synthesized update without consulting the table |
| App.ResolvedStatus | project/src/App.tsx:91-93 | a given status is kept; otherwise critical iff fill >= 80, normal iff fill < 50, never servicing |
| App.ApplyUpdate | project/src/App.tsx:84-102 | only bins with the update's id change; length, order, ids and every other bin are kept; fill taken verbatim, battery kept when the update has none or 0, status given or derived from fill, stamped `now` |
| App.UnknownIdLeavesListUnchanged | project/src/App.tsx:84-101 | an update for an id the list does not hold leaves it unchanged |
| App.ApplyUpdateIdempotent | project/src/App.tsx:84-101 | applying the same update twice at one receipt time equals applying it once |
| App.ApplyUpdateAgain | project/src/App.tsx:84-101 | applying an update received at t1 and again at t2 equals applying it once at t2: the second delivery rewrites the same fields and only the stamp moves |
| App.ApplyAll | project/src/App.tsx:84-101 | a sequence of updates keeps the list's length and ids |
| App.LastUpdateWins | project/src/App.tsx:84-101 | after a sequence of updates each bin shows the fill and status of the last update addressed to it, or is untouched |
| App.ResetLiveBin | project/src/App.tsx:117-129 | bin 1001 gets fill 0, normal, stamped `now`; its battery and every other bin are untouched |
| App.CheckConnection | project/src/App.tsx:107-133 | acts only when a last-update time exists, more than 120 s have passed (strict) and the flag is up; then the flag drops and bin 1001 is reset |
| App.LivenessWindow | project/src/App.tsx:109-111 | at 119 s and exactly 120 s nothing happens; at 121 s the reset happens |
| App.SilentIsFixpoint | project/src/App.tsx:112 | once the flag is down, further checks change nothing |
| App.ChecksResetAtMostOnce | project/src/App.tsx:107-133 | a sequence of checks with no update in between yields the unchanged state or the state of one single late check |
| App.StepStatus | project/src/App.tsx:156-163 | the generator never picks servicing from fill, and picks normal iff fill < 50 |
| App.StepStatusIsDeriveStatus | project/src/App.tsx:156-163 | the generator's thresholds (<50, <80) agree with the update path's (>=80, >=50) |
| App.SyntheticBin | project/src/App.tsx:149-179 | an unselected bin is unchanged; a selected bin keeps its identity, gets fill clamp(fill + delta) with status from the thresholds, or servicing with 20 subtracted and floored at 0; battery drained by at most 1 and floored at 0 |
| App.SyntheticBounds | project/src/App.tsx:151-171 | fill stays in [0, 100]; without servicing, a delta drawn in [-2, 5] moves an in-range fill by at most that much; battery never below 0, drops by at most 1, never rises |
| App.SyntheticTick | project/src/App.tsx:141-185 | bin 1001 and unselected bins are unchanged; every other bin takes its synthetic step with fill in [0, 100] |
| App.RefreshTimestamps | project/src/App.tsx:191-202 | only `lastUpdated` changes, and only for bins other than 1001 |
| App.HasLiveIff | project/src/App.tsx:78-82 | a batch raises the live flag iff some update in it is for bin 1001 |
| App.AppState.constructor | project/src/App.tsx:13-18 | the list is the seed fleet, its statistics are current, and the live flag is down with no last-update time |
| App.AppState.UpdateBinData | project/src/App.tsx:74-103 | the list becomes ApplyUpdate of it; an update for 1001 raises the flag and records `now`, others leave both alone; statistics recomputed |
| App.AppState.CheckConnectionStatus | project/src/App.tsx:107-133 | the view becomes CheckConnection of the old view; statistics change only on a reset |
| App.AppState.UpdateDustbins | project/src/App.tsx:141-185 | every bin but 1001 takes its synthetic step; the flag is untouched; statistics recomputed |
| App.AppState.RefreshData | project/src/App.tsx:191-202 | every bin but 1001 is restamped; statistics recomputed |
| App.AppState.OnDeliveries | project/src/App.tsx:54-57 | the list becomes the result of applying, in order, every update delivered to the application's callback; the flag becomes the old flag or whether one of them was for 1001, and then the last-update time becomes `now`, else stays; statistics are unchanged when nothing was delivered and current otherwise |
| Reconcile.RecordsForBroadcast | project/src/services/binService.ts:49-55 | a callback registered k times receives a notification k times |
| Reconcile.RecordsForBroadcastAll | project/src/services/binService.ts:224-245 | a callback registered once receives exactly the notified updates, once each, in order |
| Reconcile.Mount | project/src/App.tsx:51-63 | the callback is appended, the push subscription is connecting on the new channel, and the poll timer runs; a previous channel and timer, if any, are removed and cleared, exactly those; the table is kept |
| Reconcile.Unmount | project/src/App.tsx:65-70 | the callback's registration is removed; the subscription and timer are stopped, exactly the running channel and timer being removed and cleared; the state becomes disconnected when a channel was running; the table is kept |
| Reconcile.PollTick | project/src/App.tsx:54-57 | one poll tick leaves the table as PollTable of the batch and the list as ApplyAll of exactly the forwarded updates; the live flag and time follow whether a forwarded update was for 1001; statistics unchanged when nothing is forwarded; a failed fetch leaves table, list, flag, time and statistics unchanged |
| Reconcile.PushBypassesDedup | project/src/services/binService.ts:76-90 | the poll forwards a record (fill 45, time 100) received at tPoll; the same record pushed at tPush reapplies the same fill, status and battery, restamps bin 1001 with tPush and leaves every other bin as polled; an older record (time 90) is rejected by the poll gate but applied by the push path, so bin 1001 drops to 10 |

## Left out

- Backing-store I/O: the client, `testConnection`, `getLatestBinData` (the
  initial load of bin 1001), `getAllRecentUpdates`,
  `sendTestDataToDatabase` and the `testRealtimeConnection` probe insert. The
  query result and channel events are inputs instead.
- Timers: `setInterval` and `setTimeout`. Each tick is a method call that
  takes `now`. The interval length given to `startPolling` is not modelled;
  only the timer handle is.
- `Math.random`: the draws are parameters, and probabilities are not
  modelled. The synthetic fill change is bounded by `ValidRoll` where a
  property needs it.
- Date and ISO-string parsing: timestamps are integers. An unparsable date
  (NaN) is not modelled.
- The `JSON.parse(JSON.stringify(...))` deep copy: lists are values.
- Logging, the `debugMode` flag, and `getInstance`: there is one service
  object, built by its constructor.
- React rendering, hooks plumbing, the display components, the helper
  module's formatting and filtering, and the upstream insert function. The
  upstream function's [0, 100] range check is only an assumption about
  inbound records.
- Concurrency: the code runs on one event loop and is modelled sequentially.
  A callback that subscribes or unsubscribes during a notification is not
  modelled.
- CalculateStats (Dustbins.CalculateStats): requires a non-empty list. The
  source divides by the length and yields NaN for an empty list, and the
  application always holds eight bins.
- Floating point: the average and the score use exact reals, not IEEE
  doubles.
- Status labels: an update's status is one of the four known values or
  absent. An arbitrary or empty label written to the table is not modelled.
