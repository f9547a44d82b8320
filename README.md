# Potloc shoe-inventory dashboard — a Dafny model

The system watches a simulated stream of shoe-sale events. A Ruby ingestion
client (`WebSocketClient`) connects to the upstream event feed, upserts each
reading `(store, model, inventory)` into the store/shoe database, rebuilds the
full inventory snapshot, derives low-inventory alerts from it and broadcasts
`{inventory, alerts}` on the `inventory_channel`. After a failed connection it
retries at most `MAX_ATTEMPTS = 2` times, then broadcasts
`{error: 'WebSocket connection error'}` and stops. In the browser, the Angular
`InventoryService` keeps the latest inventory and alerts (alerts decorated
with a colour and icon per severity), and falls back to an HTTP pull of the
inventory when the channel is not connected, disconnects or signals an error.
The `SalesComponent` turns each snapshot into summary figures (total, top
model, stores with the highest and lowest totals) and chart series.

Modules:

- `Wire` — the values that travel between the parts: shoes, store entries,
  snapshots, readings, alerts, channel payloads.
- `Aggregation` — the database as an ordered snapshot and the upsert of
  `handle_message`.
- `Decimal` — the decimal rendering Ruby's string interpolation applies to
  the inventory count inside an alert message.
- `AlertEngine` — `generate_alerts`.
- `WebSocketClient` — the connection/retry state machine as a pure transition
  function (`Step`, `Run`) and as the class `Client` whose methods
  are the callbacks and helpers of `lib/websocket_client.rb`.
- `InventoryService` — the service's state and channel callbacks
  (class `Service`), `transformAlerts` and the fallback fetch.
- `InsertionMap` — a JavaScript object used as a string-keyed dictionary
  (insertion-ordered keys, `undefined` for a key never assigned; keys
  inherited from `Object.prototype` are not modelled).
- `Sales` — `updateSummary`, `resetSummary`, the three getters and the
  derivations of `updateCharts`.

Points of the source worth knowing when reading the model:

- The fallback fetch (`frontend/src/app/inventory.service.ts:122-125`)
  publishes alerts without the colour/icon decoration that channel alerts
  receive (`:63`), so the two paths agree only on message and severity;
  `SameAlertsBothPaths` states this.
- `lib/websocket_client.rb:9-11` does not check for a running loop, so a
  second `start` would open a second socket beside the first; the model has
  one connection and does not represent that (see "## Left out").
- `onerror` only closes the socket; the retry decision happens in `onclose`.
  The model gives `Errored` a `Closing` phase that only `Closed` leaves.

## Model

| member | source | states |
|---|---|---|
| `Aggregation.FindStore` | `lib/websocket_client.rb:36` | `find_or_create_by(name:)`: the result is the first store with that name, or none exists |
| `Aggregation.FindShoe` | `lib/websocket_client.rb:37` | `find_or_create_by(model:)` within a store: the first shoe of that model, or none exists |
| `Aggregation.UpsertStores` | `lib/websocket_client.rb:35-38` | after handling a reading, the snapshot holds the reading's inventory for its store and model |
| `Aggregation.UpsertFrame` | `lib/websocket_client.rb:35-38` | every other (store, model) pair keeps its value, or stays absent |
| `Aggregation.UpsertIdempotent` | `lib/websocket_client.rb:35-38` | handling the same reading twice leaves the same snapshot as once |
| `Aggregation.UpsertStoreOrder` | `lib/websocket_client.rb:36` | the list of store names is unchanged when the store exists; a new store is appended last |
| `Aggregation.UpsertShoeOrder` | `lib/websocket_client.rb:37-38` | for an existing store, the other stores are untouched and its model list is unchanged or gains the new model last |
| `Aggregation.UpsertKeepsKeys` | `lib/websocket_client.rb:36-38` | store names stay unique, and models stay unique within each store |
| `Aggregation.Upsert` | `lib/websocket_client.rb:35-38` | definition: find or append the store, then overwrite or append the shoe; characterised by `UpsertStores`, `UpsertFrame`, `UpsertIdempotent` and the order lemmas |
| `Aggregation.SetShoe` | `lib/websocket_client.rb:37-38` | definition: overwrite the first shoe of the model, or append a new one; characterised by `SetShoeFound` and `SetShoeOther` |
| `Aggregation.Lookup` | `lib/websocket_client.rb:36-38` | definition: the inventory recorded for a (store, model) pair, if any; the observation the upsert lemmas are stated in |
| `Decimal.IntRoundTrip` | `lib/websocket_client.rb:73` | the rendered inventory count is well-formed decimal (sign only for negatives, no leading zero) and parses back to the count |
| `Decimal.NatRoundTrip` | `lib/websocket_client.rb:73` | a non-negative count renders as digits only and parses back to itself |
| `AlertEngine.LowAlert` | `lib/websocket_client.rb:71-75` | definition: the message "Low inventory for M at S: N units" with the count's severity; its severity is characterised by `Severity` |
| `AlertEngine.StoreAlerts` | `lib/websocket_client.rb:68-76` | definition: the `filter_map` over one store's shoes; equal to the reference filter by `StoreAlertsAreLowOnly` |
| `AlertEngine.GenerateAlerts` | `lib/websocket_client.rb:66-78` | definition: the `flat_map` over the stores; characterised by `AlertsFollowSnapshot`, `AlertsComplete` and `AlertsSound` |
| `AlertEngine.Severity` | `lib/websocket_client.rb:71` | "high" exactly when the count is below 3, "medium" exactly when it is 3 or more |
| `AlertEngine.AlertsFollowSnapshot` | `lib/websocket_client.rb:66-78` | the alerts are exactly the low shoes' alerts, in store order and then shoe order |
| `AlertEngine.GenerateAlertsAppend` | `lib/websocket_client.rb:67` | alerts of consecutive parts of a snapshot are concatenated in that order |
| `AlertEngine.AlertsComplete` | `lib/websocket_client.rb:68-75` | every shoe whose count is below 10 is reported, with the message built from its model, store and count |
| `AlertEngine.AlertsSound` | `lib/websocket_client.rb:68-75` | every alert reports a shoe of the snapshot below 10, with "high" exactly when that shoe is below 3 |
| `AlertEngine.ThreeReadingsAlerts` | `lib/websocket_client.rb:66-78` | the snapshot with X at 5 and Y at 15 in store A and X at 2 in store B yields a "medium" alert for X at A, then a "high" one for X at B |
| `WebSocketClient.Connect` | `lib/websocket_client.rb:13-14` | definition: one more socket, connecting, whose callbacks capture the given counter |
| `WebSocketClient.Ingest` | `lib/websocket_client.rb:35-44` | definition: upsert, then broadcast the whole snapshot with its alerts; `Client.OnMessage` states its effect |
| `WebSocketClient.AfterClose` | `lib/websocket_client.rb:46-55` | definition: below `MAX_ATTEMPTS` schedule retry attempts + 1, otherwise broadcast the error and stop |
| `WebSocketClient.Step` | `lib/websocket_client.rb:13-55` | definition: one callback or timer event; its properties are `StepInvariant`, `StepBudget` and `StoppedStaysStopped` |
| `WebSocketClient.Run` | `lib/websocket_client.rb:9-55` | definition: events in order; its properties are `RunInvariant`, `FailingRunBound`, `StartBound` and `PermanentFailure` |
| `WebSocketClient.StepInvariant` | `lib/websocket_client.rb:13-55` | every transition keeps the attempt counter within `MAX_ATTEMPTS`, a pending retry numbered 1..`MAX_ATTEMPTS`, and the snapshot keys unique |
| `WebSocketClient.RunInvariant` | `lib/websocket_client.rb:13-55` | the same holds after any sequence of events |
| `WebSocketClient.StepBudget` | `lib/websocket_client.rb:46-55` | without a successful open, no transition raises connections made plus retries left, and an error is broadcast only when the client stops |
| `WebSocketClient.FailingRunBound` | `lib/websocket_client.rb:46-55` | a run in which no connection opens makes at most the remaining retries' connections and broadcasts at most one error |
| `WebSocketClient.StartBound` | `lib/websocket_client.rb:7-11` | from start, a feed that never opens is tried at most 1 + `MAX_ATTEMPTS` times and yields at most one error broadcast |
| `WebSocketClient.PermanentFailure` | `lib/websocket_client.rb:46-55` | start, then three failed connections with two retry timers: three connections, one error broadcast, client stopped, snapshot untouched |
| `WebSocketClient.StoppedStaysStopped` | `lib/websocket_client.rb:53` | once stopped, no event other than a new start changes anything |
| `WebSocketClient.OpenRestoresBudget` | `lib/websocket_client.rb:16-19` | a successful open resets the attempt counter, so a later failure again gets the full `MAX_ATTEMPTS` retries |
| `WebSocketClient.ThreeReadings` | `lib/websocket_client.rb:35-38` | readings (A, X, 5), (A, Y, 15), (B, X, 2) into an empty database give store A with X then Y, then store B with X |
| `WebSocketClient.Client.constructor` | `lib/websocket_client.rb:5-7` | a client that has not started: no connection, no attempts, nothing broadcast, the given database |
| `WebSocketClient.Client.Start` | `lib/websocket_client.rb:9-11` | `start` makes the first connection with attempt number 0 |
| `WebSocketClient.Client.ConnectToWebsocket` | `lib/websocket_client.rb:13-14` | one more connection, in phase connecting, with the given attempt number |
| `WebSocketClient.Client.OnOpen` | `lib/websocket_client.rb:16-19` | the connection is open and the attempt counter is 0 |
| `WebSocketClient.Client.OnMessage` | `lib/websocket_client.rb:21-23` | the reading is stored and the new snapshot with its alerts is appended to the broadcasts |
| `WebSocketClient.Client.HandleMessage` | `lib/websocket_client.rb:35-44` | upsert, then broadcast `{inventory, alerts}` of the whole new snapshot |
| `WebSocketClient.Client.OnError` | `lib/websocket_client.rb:25-28` | the socket is being closed; nothing else changes |
| `WebSocketClient.Client.OnClose` | `lib/websocket_client.rb:30-32` | below the limit a retry numbered attempts + 1 is scheduled; at the limit one error is broadcast and the client stops |
| `WebSocketClient.Client.HandleClose` | `lib/websocket_client.rb:46-55` | `attempts < MAX_ATTEMPTS` schedules retry attempts + 1, otherwise error broadcast and stop |
| `WebSocketClient.Client.OnTimer` | `lib/websocket_client.rb:50` | the retry timer reconnects with the scheduled attempt number |
| `WebSocketClient.PermanentlyFailingUpstream` | `lib/websocket_client.rb:46-55` | driving the class through a feed that never opens: exactly 1 + `MAX_ATTEMPTS` connections, one error broadcast, stopped |
| `InventoryService.StyleFor` | `frontend/src/app/inventory.service.ts:81-97` | the colour, icon and icon colour for "high", "medium" and any other severity; danger exactly for "high", warning exactly for "medium" |
| `InventoryService.TransformAlerts` | `frontend/src/app/inventory.service.ts:75-101` | same length and order; each alert keeps message and severity and gains the style of its severity |
| `InventoryService.AsFetched` | `frontend/src/app/inventory.service.ts:124` | same length; each fetched alert is held with its message and severity and no decoration |
| `InventoryService.TransformRoundTrip` | `frontend/src/app/inventory.service.ts:99` | the transform only adds attributes: removing them gives back the input alerts |
| `InventoryService.Service.constructor` | `frontend/src/app/inventory.service.ts:33-42` | empty inventory and alerts, not connected, fallback timer armed, nothing fetched |
| `InventoryService.Service.Connected` | `frontend/src/app/inventory.service.ts:46-53` | connected, backend notified once, timer cleared, published values untouched |
| `InventoryService.Service.Disconnected` | `frontend/src/app/inventory.service.ts:54-57` | not connected and exactly one fallback fetch |
| `InventoryService.Service.Received` | `frontend/src/app/inventory.service.ts:58-65` | an error payload triggers one fetch and publishes nothing; a normal payload publishes its inventory and its transformed alerts |
| `InventoryService.Service.TimerFires` | `frontend/src/app/inventory.service.ts:68-72` | the timer is spent, and a fetch happens exactly when the channel is not connected |
| `InventoryService.Service.FetchInventoryFallback` | `frontend/src/app/inventory.service.ts:114-115` | one more request is outstanding; nothing is published yet |
| `InventoryService.Service.FallbackOutcome` | `frontend/src/app/inventory.service.ts:116-125` | a failure publishes an empty inventory and no alerts; a success publishes the fetched inventory and its alerts undecorated |
| `InventoryService.Service.NotifyBackendOfConnection` | `frontend/src/app/inventory.service.ts:103-112` | one more notification sent; a failure changes nothing else |
| `InventoryService.ConnectBeforeTimeout` | `frontend/src/app/inventory.service.ts:46-53` | connecting before the timer expires cancels it and nothing is fetched |
| `InventoryService.TimeoutWithoutChannel` | `frontend/src/app/inventory.service.ts:68-72` | with no channel, the timer's expiry fetches exactly once |
| `InventoryService.ConnectThenDisconnect` | `frontend/src/app/inventory.service.ts:54-57` | a disconnect after a connect fetches exactly once and clears the flag |
| `InventoryService.SameAlertsBothPaths` | `frontend/src/app/inventory.service.ts:122-125` | the same alerts via channel and via fetch agree on message and severity; only the channel copy is decorated |
| `Sales.TotalInventory` | `frontend/src/app/dashboard/dashboard-components/sales/sales.component.ts:125-134` | definition: the sum of every shoe's count across stores; `UpdateSummary` is proved to compute it |
| `Sales.CountFrom` | `frontend/src/app/dashboard/dashboard-components/sales/sales.component.ts:127-132` | definition: the inner loop's updates of `modelCount` for one store's shoes; characterised by `CountFromValue` and `CountFromKeys` |
| `Sales.ModelCounts` | `frontend/src/app/dashboard/dashboard-components/sales/sales.component.ts:125-134` | definition: `modelCount` after every store; characterised by `ModelCountIsSum` and `ModelCountKeys` |
| `Sales.StoreTotals` | `frontend/src/app/dashboard/dashboard-components/sales/sales.component.ts:125-134` | definition: `storeInventory` after every store; characterised by `StoreTotalsLastWins` and `StoreTotalsKeys` |
| `Sales.Reduce` | `frontend/src/app/dashboard/dashboard-components/sales/sales.component.ts:160-170` | the reduction from '' over a list of keys returns '' or one of those keys |
| `Sales.Best` | `frontend/src/app/dashboard/dashboard-components/sales/sales.component.ts:160-170` | each getter returns '' or a key of its dictionary; which key is stated by `BestIsLastOptimal` |
| `Sales.ModelCountIsSum` | `frontend/src/app/dashboard/dashboard-components/sales/sales.component.ts:125-134` | `modelCount[m]` is the sum over all stores of the counts of shoes of model `m`, and `m` is a key exactly when some shoe has that model |
| `Sales.ModelCountKeys` | `frontend/src/app/dashboard/dashboard-components/sales/sales.component.ts:131` | the keys of `modelCount` are the models in first-seen order |
| `Sales.StoreTotalsLastWins` | `frontend/src/app/dashboard/dashboard-components/sales/sales.component.ts:133` | the entry of a store name is the total of the last store with that name |
| `Sales.StoreTotalsKeys` | `frontend/src/app/dashboard/dashboard-components/sales/sales.component.ts:133` | the keys of `storeInventory` are the store names without repeats, in first-seen order |
| `Sales.BestIsLastOptimal` | `frontend/src/app/dashboard/dashboard-components/sales/sales.component.ts:160-170` | each getter returns '' for an empty dictionary, and otherwise the last key in insertion order with the highest (or lowest) value |
| `Sales.SummaryPicks` | `frontend/src/app/dashboard/dashboard-components/sales/sales.component.ts:138-141` | the top model and the highest and lowest stores are each '' for an empty dictionary, otherwise the last key with the optimal value; `storeInventory` is empty exactly when the data is |
| `InsertionMap.Put` | `frontend/src/app/dashboard/dashboard-components/sales/sales.component.ts:131-133` | `d[k] = v`: the value of `k` becomes `v`; an existing key keeps its place, a new key is listed last |
| `InsertionMap.Get` | `frontend/src/app/dashboard/dashboard-components/sales/sales.component.ts:161` | definition: `d[k]`, `None` standing for `undefined` |
| `InsertionMap.GetOrZero` | `frontend/src/app/dashboard/dashboard-components/sales/sales.component.ts:131` | definition: `d[k] \|\| 0` |
| `InsertionMap.PutValid` | `frontend/src/app/dashboard/dashboard-components/sales/sales.component.ts:131-133` | assigning a key of a dictionary keeps each key listed once and the listed keys exactly those holding a value |
| `Sales.DedupMembers` | `frontend/src/app/dashboard/dashboard-components/sales/sales.component.ts:94` | `[...new Set(...)]` has no repeats and exactly the elements of its input |
| `Sales.DedupFirstSeen` | `frontend/src/app/dashboard/dashboard-components/sales/sales.component.ts:94` | `[...new Set(...)]` lists elements in the order of their first occurrence |
| `Sales.Dedup` | `frontend/src/app/dashboard/dashboard-components/sales/sales.component.ts:94` | definition: `[...new Set(xs)]`; characterised by `DedupMembers` and `DedupFirstSeen` |
| `Sales.DistinctModels` | `frontend/src/app/dashboard/dashboard-components/sales/sales.component.ts:94` | `models` has no repeats and holds exactly the models of the snapshot's shoes |
| `Sales.FirstInventory` | `frontend/src/app/dashboard/dashboard-components/sales/sales.component.ts:97` | 0 when the store has no shoe of the model; otherwise the count of its first shoe of that model |
| `Sales.ModelSeries` | `frontend/src/app/dashboard/dashboard-components/sales/sales.component.ts:95-98` | the series is named after the model and has, for each store in order, that store's `FirstInventory` |
| `Sales.StoreSum` | `frontend/src/app/dashboard/dashboard-components/sales/sales.component.ts:99` | definition: the `reduce` over stores of `FirstInventory`; equal to the sum of the model's series by `StoreSumIsSeriesSum` |
| `Sales.UpdateCharts` | `frontend/src/app/dashboard/dashboard-components/sales/sales.component.ts:86-99` | `stores` are the store names in order; `models` are the distinct models in first-seen order; per model, a series whose value for store j is that store's first shoe of the model, or 0; each aggregated value is the sum over the stores of those values, equal to the sum of its series; empty data gives empty charts |
| `Sales.FirstInventoryIsModelSum` | `frontend/src/app/dashboard/dashboard-components/sales/sales.component.ts:97` | in a store without repeated models, the first shoe of a model carries all of that model's count |
| `Sales.ChartsAgreeWithSummary` | `frontend/src/app/dashboard/dashboard-components/sales/sales.component.ts:94-134` | for a snapshot with unique keys, the chart's models are `modelCount`'s keys in order and each aggregated value equals that model's `modelCount` |
| `Sales.SalesComponent.constructor` | `frontend/src/app/dashboard/dashboard-components/sales/sales.component.ts:21-25` | the summary fields start at 0 and '' |
| `Sales.SalesComponent.ResetSummary` | `frontend/src/app/dashboard/dashboard-components/sales/sales.component.ts:148-158` | total 0 and every name '' |
| `Sales.SalesComponent.UpdateSummary` | `frontend/src/app/dashboard/dashboard-components/sales/sales.component.ts:113-141` | empty data resets; otherwise the nested loops leave the total of all counts, and the top model and highest/lowest stores chosen from `modelCount` and `storeInventory` |

## Left out

- Transport and timers: sockets, `EM.run`, `EM.add_timer`, ActionCable and
  `setTimeout` are not modelled; their callbacks are events or method calls,
  and the two-second and ten-second delays are not represented.
- `Thread.new` in the controller and the absence of a single-flight guard:
  concurrent ingestion runs are not modelled; a single client is.
- `WebSocketClient.Step`: a `Start` event while the loop is running is a
  no-op, which stands for nothing in the source: there a second `start`
  opens a second socket beside the first. `RunInvariant`, `FailingRunBound`
  and the other lemmas over `Run` therefore describe a loop with one live
  connection only.
- Persistence: the database is an ordered in-memory snapshot; `aggregate_data`
  is the identity on it, listing stores and shoes in insertion order.
- `JSON.parse` failures and malformed readings: a message is a well-formed
  reading.
- `WebSocketClient.Client.Start`: requires a stopped client, for the same
  reason.
- HTTP requests: a fallback fetch's outcome is an input (`FetchResult`); the
  notification to the "start ingestion" endpoint is a counter.
- `received` tests `data.error` for truthiness; an empty error string would
  be treated as a normal payload, which the model does not distinguish.
- Floating point: `averageInventory` and the two average-per-model getters
  (`sales.component.ts:137`, `:142-143`, `:172-177`); with exact arithmetic
  the latter would pick the same key as `getTopModel` and its `<` twin.
- Charting and UI: `initializeChartOptions`, `initializeSummaries`,
  `updateApexCharts` and the template.
- JavaScript puts integer-like object keys before the others in
  `Object.keys`; the model keeps pure insertion order.
- Keys inherited from `Object.prototype`: for a model or store named
  `constructor`, `toString` and the like, `modelCount[name] || 0` reads the
  inherited function and the `+` concatenates strings; an assignment to
  `__proto__` never shows in `Object.keys`. The model treats every name as
  an ordinary key that is absent until assigned.
- JavaScript numbers are 64-bit floats: the sums of `updateSummary` and
  `updateCharts` are exact only while they stay below 2^53; the model's
  integers are unbounded.
- A `null`/`undefined` snapshot in `updateSummary`/`updateCharts`: the model's
  snapshot is always a list.
- `app/controllers/api/inventory_controller.rb`, `config/`, `db/` and the
  other front-end files are not part of this model.
