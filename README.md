# mysqlrouter-exporter collection cycle, in Dafny

This project models the collection cycle of mysqlrouter-exporter. The exporter is a
Prometheus exporter that scrapes the REST interface of MySQL Router and publishes what it
finds as gauges. One cycle (`collectMetrics`) runs three stages in order:

- **Router stage** (`collectRouterMetrics`). It fetches the router status, sets the `up`
  gauge to 1 or 0, creates the router-info series and remembers the router in `lastRouter`.
- **Metadata stage** (`collectMetadataMetrics`). It lists the metadata caches. For each
  one it exports a presence series, a config series, a node-count series and, when
  `collectMetadataStatus` is on, a status series. Just before writing the status series it
  resets the status gauge.
- **Route stage** (`collectRouteMetrics`).
  - With a router, it resets every connection family whose flag is on. Then it exports,
    for each route, the presence, active/total/blocked counts, health, destinations and
    per-connection series. It stores the route-connection list after each route and the
    route list after the loop.
  - Without a router (the fetch failed), it takes the degraded branch. That branch zeroes
    the four route-level gauges of the stored routes.

Every fetch that fails is written to the error output, and the stage ends there. Calls
already made to the registry stay made.

## How it is modelled

- `remote.dfy` holds the router's records and the client. The client is an oracle: each
  call is an input that either succeeds with a record or fails with a message.
- `registry.dfy` reduces the Prometheus registry to a map from (gauge, label values) to an
  integer, changed by three calls:
  - `Touch` is `WithLabelValues`, which creates the series with 0 if it is absent.
  - `Set` overwrites the value.
  - `Reset` drops every series of one gauge.

  `Apply` runs a sequence of calls. `ApplyAt` gives its effect on one series.
- `cycle.dfy` (module `Cycle`) describes each stage as a function. Each function returns
  the registry calls the stage makes, in order, the errors it reports, the new snapshot
  (`lastRouter`, `lastRoutes`, `lastRouteConnections`) and how it ended.
- `engine.dfy` (class `Engine.Collector`) is the exporter as it runs.
  - The registry, the snapshot and the error output are fields.
  - There is one method per function of the source, with the same loops and early
    returns.
  - Each method is proved to make exactly the calls, snapshot updates and error reports of
    the matching `Cycle` function. A ghost `history` of registry calls ties the `gauges`
    field to `Apply(map[], history)`.
- `router_props.dfy`, `metadata_props.dfy`, `route_props.dfy` and `cycle_props.dfy` prove
  what the stages guarantee about the registry and the snapshot.

### Where the code and its description differ

The model follows the code. Three places differ from what the code evidently intends.

- **Nil dereference in the degraded branch.** The degraded route branch is meant to
  zero-fill the stored routes and their connection series; the comment at main.go:206-207
  says that route metrics will be 0 while the router is down. It does zero the four
  route-level gauges, using `lastRouter.Hostname`. But each per-connection write in that
  branch labels its series with `router.Hostname`, and `router` is nil there
  (main.go:215-232).
  - So when any connection family is enabled and a connection list is stored, the first
    stored route is zeroed and then the program dereferences nil. Every later stored route
    keeps its old route-level values.
  - The model gives this outcome a name, `NilDereference` (`Cycle.ZeroFill`,
    `RouteProperties.ZeroFillStopsAfterFirstRoute`).
  - The connection series keep their last values (`RouteProperties.ZeroFillSparesOthers`,
    `CycleProperties.RouterDownAfterHealthyCycle`). They are not zeroed.
- **The snapshot is not updated atomically.** `lastRouteConnections` is assigned inside
  the route loop after every route whose fetches all succeed (main.go:323).
  `lastRoutes` is assigned only after the loop (main.go:325). So a failure at the second
  or a later route leaves the old route list next to a new connection list
  (`RouteProperties.PartialFailureDesync`). The evident intent is that the two lists
  change together, and only after full success.
- **The metadata status gauge keeps one entry.** The status gauge is reset before each
  entry's status series is written (main.go:199). So after a stage that completes, it
  holds only the last entry's series (`MetadataProperties.StatusHoldsLastEntry`).

## Model

| member | source | states |
|---|---|---|
| Engine.Collector.constructor | main.go:54-58 | The exporter starts with an empty registry, no stored router, no stored routes and no stored connections. |
| Engine.Collector.Write | main.go:273-275 | One registry call appends to the history, and the registry stays the result of applying the whole history to an empty one. |
| Engine.Collector.WriteError | main.go:328-330 | Reporting an error appends exactly one line to the error output. |
| Engine.Collector.CollectRouterMetrics | main.go:150-163 | Makes exactly the calls of `Cycle.RouterStage`. On success it stores the fetched router; on failure it leaves `lastRouter` unchanged. Returns the fetch result. |
| Engine.Collector.CollectMetadataEntry | main.go:178-202 | One pass of the metadata loop makes the calls of `Cycle.MetadataEntry`. It reports the first failing fetch's error and says whether it failed. |
| Engine.Collector.CollectMetadataMetrics | main.go:165-203 | Makes exactly the calls and error reports of `Cycle.MetadataStage`: nothing without a router, and it stops at the first failing fetch. It does not touch the snapshot. |
| Engine.Collector.ZeroRoute | main.go:209-234 | Zeroes the four route-level gauges of one stored route under the stored router's hostname. It dereferences nil exactly when a connection family is enabled and a connection list is stored. |
| Engine.Collector.ZeroLastRoutes | main.go:208-237 | The degraded branch makes the calls of `Cycle.ZeroFill` over the stored routes and ends as it does. It leaves the snapshot alone. |
| Engine.Collector.ResetConnectionGauges | main.go:245-262 | Resets exactly the enabled connection families, in source order (`Cycle.ResetWrites`). |
| Engine.Collector.RecordDestinations | main.go:293-295 | Creates one destination series per fetched destination, in order. |
| Engine.Collector.RecordConnection | main.go:304-321 | Sets the enabled families of one connection. Bytes are the raw counts; times are Unix seconds × 1000. |
| Engine.Collector.RecordConnections | main.go:303-322 | Records every fetched connection of a route, in order. |
| Engine.Collector.CollectRouteListing | main.go:288-323 | Destinations, then connections, stopping at a failing fetch. The stored connection list is replaced exactly when both fetches succeed. |
| Engine.Collector.CollectRoute | main.go:264-324 | One pass of the route loop makes the calls of `Cycle.RouteEntry` and reports the first failing fetch. |
| Engine.Collector.CollectRoutes | main.go:245-325 | Resets, then the route loop. `lastRouteConnections` ends as the loop left it. `lastRoutes` becomes the fetched list only when no fetch failed. |
| Engine.Collector.CollectRouteMetrics | main.go:205-326 | Makes exactly the calls, snapshot updates, error reports and exit of `Cycle.RouteStage`. |
| Engine.Collector.CollectMetrics | main.go:139-148 | One cycle makes exactly the calls, snapshot, error reports and exit of `Cycle.RunCycle`. The registry becomes the old registry with those calls applied. |
| Registry.Exec | main.go:187-200 | One registry call (`WithLabelValues`, `Set` or `Reset`) acts on each series as `OpAt` says: creating an absent series with 0, overwriting a value, or removing every series of the gauge. |
| Registry.Apply | main.go:178-202 | A sequence of calls acts on each series as the calls do one after another. |
| Cycle.RouterStage | main.go:150-163 | No errors of its own. Routes and connections are kept. `lastRouter` becomes the fetched router on success and stays unchanged on failure. |
| Cycle.MetadataEntry | main.go:178-202 | Fails exactly when the config fetch fails, or when the status flag is on and the status fetch fails. It always starts by creating the entry's presence series. |
| Cycle.MetadataLoop | main.go:178-202 | The metadata loop ends with an error exactly when some listed entry has a failing fetch. |
| Cycle.MetadataStage | main.go:165-176 | Without a router, no calls and no error. When listing the metadata fails, no calls and exactly that error. |
| Cycle.ZeroWrites | main.go:210-213 | One stored route gets four Sets to 0, each labelled (route name, stored hostname). |
| Cycle.ZeroFill | main.go:208-237 | Dereferences nil exactly when routes are stored, connections are stored and some connection family is enabled. |
| Cycle.ResetWrites | main.go:245-262 | Resets exactly the enabled connection families: only resets, only of enabled families, and every enabled family. |
| Cycle.RouteListing | main.go:288-301 | Succeeds exactly when both the destinations fetch and the connections fetch succeed. |
| Cycle.RouteEntry | main.go:264-301 | Succeeds exactly when all four fetches for the route succeed. It always starts with the route's presence series. |
| Cycle.RouteLoop | main.go:264-324 | The route loop ends with an error exactly when some listed route has a failing fetch. |
| Cycle.ConnValue | main.go:310-321 | The time families report whole milliseconds (a multiple of 1000). |
| Cycle.RouteStage | main.go:205-326 | The stored router is never changed. The degraded branch leaves the snapshot unchanged and reports nothing. Only the degraded branch can dereference nil. |
| Cycle.RunCycle | main.go:139-148 | A cycle keeps the snapshot invariant: routes are stored only after a router was seen. |
| Strconv.ItoaRoundTrip | main.go:158 | Reading a rendered number back with `Atoi` gives the number, so the label text of a process ID, refresh interval, port or failure count determines the value. |
| Strconv.ItoaInjective | main.go:187-200 | Distinct numbers render as distinct label values, so distinct ports give distinct destination series. |
| RouterProperties.UpReflectsFetch | main.go:150-157 | After the router stage, up reads 1 if the status fetch succeeded and 0 if it failed. |
| RouterProperties.RouterInfoExported | main.go:157-158 | After a successful fetch, the router-info series labelled with the fetched router and the service name is exported. |
| RouterProperties.RouterStageWrites | main.go:150-163 | The router stage writes only the up gauge and the router-info gauge. |
| MetadataProperties.MetadataLoopStops | main.go:182-198 | At the first failing entry the loop stops with that fetch's error. The calls already made for earlier entries, and for this entry up to the failure, remain; no call follows. |
| MetadataProperties.MetadataStageWrites | main.go:165-203 | The metadata stage writes only the four metadata gauges. Every node-count Set carries the length of the fetched node list. A status Reset or Touch happens only with the flag on. |
| MetadataProperties.MetadataEntryExported | main.go:178-190 | After a complete stage, every listed entry has its presence series and config series, and its node-count series reads `len(Nodes)`. |
| MetadataProperties.StatusUntouchedWhenOff | main.go:193-201 | With the status flag off, no status series changes. |
| MetadataProperties.StatusHoldsLastEntry | main.go:193-201 | With the flag on, after a complete stage, the status gauge holds exactly one series: the last entry's, reading 0. |
| RouteProperties.ZeroFillWrites | main.go:209-213 | Every degraded-branch call sets a route-level gauge of a stored route to 0, labelled with the stored router's hostname. |
| RouteProperties.ZeroFillCompleted | main.go:208-236 | When no family is enabled or no connections are stored, every stored route's four route-level gauges read 0 afterwards. |
| RouteProperties.ZeroFillStopsAfterFirstRoute | main.go:206-217 | With a family enabled and connections stored, the first stored route's four route-level gauges read 0. Every other series keeps its value, including the gauges of every later stored route, although main.go:206-207 says all route metrics become 0. |
| RouteProperties.ZeroFillSparesOthers | main.go:208-237 | The degraded branch changes no series outside the four route-level gauges. In particular, no connection series is zeroed. |
| RouteProperties.RouteStageWrites | main.go:205-326 | Both branches write only route gauges, plus the connection families whose flag is on. |
| RouteProperties.RouteLoopWritesSound | main.go:264-324 | Every call of the route loop is a presence or destination Touch for a listed route, or a Set whose value is the fetched status, the health (1 or 0), or a connection's value in an enabled family. It makes no Reset. |
| RouteProperties.ConnectionSeriesFromThisCycle | main.go:245-322 | After the normal branch, every series of an enabled family belongs to a route of this cycle's list. Its value comes from one of that route's fetched connections. |
| RouteProperties.VanishedRouteLeavesNoConnections | main.go:245-322 | A route missing from this cycle's list has no series in any enabled connection family afterwards. |
| RouteProperties.RouteLoopReaches | main.go:264-301 | Every route the loop reaches makes all its calls up to its failing fetch, if any. The reached routes are those before the first failing route, plus that route. |
| RouteProperties.RouteLoopStops | main.go:264-301 | A loop that meets a failing route makes the earlier routes' calls, then that route's calls up to the failing fetch, then nothing more. It ends with that fetch's error. |
| RouteProperties.RoutePresenceExported | main.go:264-265 | Every route the loop reaches, including the failing one, has its presence series exported. |
| RouteProperties.RouteCountsExported | main.go:267-275 | Every reached route whose status fetch succeeded has active, total and blocked series reading the fetched counts, even when a later fetch of that route fails. |
| RouteProperties.RouteHealthExported | main.go:277-286 | Every reached route whose status and health fetches succeeded has a health series reading 1 if alive and 0 otherwise. |
| RouteProperties.DestinationExported | main.go:288-295 | Every reached route whose status, health and destinations fetches succeeded has a series for each fetched destination, even when its connections fetch then fails. |
| RouteProperties.ConnectionExported | main.go:297-323 | For every route whose fetches all succeeded before the loop stopped, every fetched connection has a series in each enabled family. |
| RouteProperties.ConnectionValueUnits | main.go:303-321 | After the normal branch, every series of an enabled byte family holds the raw counter of one of its route's fetched connections. Every series of an enabled time family holds a multiple of 1000 (milliseconds). |
| RouteProperties.OkPrefix | main.go:264-301 | Counts the leading routes whose fetches all succeed; the route right after them has a failing fetch. |
| RouteProperties.RouteLoopOutcome | main.go:264-324 | The loop fails exactly when some route has a failing fetch. The stored connection list is the last successful route's list, or the old list if the first route failed. |
| RouteProperties.NormalBranchSnapshot | main.go:239-325 | `lastRoutes` changes only when every route's fetches succeed. `lastRouteConnections` follows the last successful route. An error is reported exactly when some route fails. |
| RouteProperties.PartialFailureDesync | main.go:323-325 | A failure at the second or a later route keeps the old route list but stores a new connection list. |
| CycleProperties.RouterStageKeepsInvariant | main.go:150-163 | The router stage keeps the invariant that stored routes imply a stored router. |
| CycleProperties.CycleWrites | main.go:139-148 | A cycle is the router stage's calls, then the metadata stage's, then the route stage's. Each stage writes only its own gauges. |
| CycleProperties.CycleUp | main.go:139-157 | After a cycle, up reads 1 when the router answered and 0 when it did not. |
| CycleProperties.FlagGating | main.go:208-322 | No stage of a cycle resets or sets a connection family whose flag is off. |
| CycleProperties.DisabledFamilyUnchanged | main.go:208-322 | The series of a connection family whose flag is off keep their values across a cycle. |
| CycleProperties.RouteLoopIgnoresStored | main.go:264-324 | The route loop's calls and failure do not depend on the stored connection list. |
| CycleProperties.SecondCycleRepeats | main.go:130-148 | A second cycle against the same answers makes the same calls, errors and exit as the first, and keeps the snapshot the first left. |
| CycleProperties.CycleIdempotent | main.go:130-148 | Two collection cycles against unchanged answers leave the registry as one does. |
| CycleProperties.HealthyCycle | main.go:139-326 | With router r and route r1 reporting 3 active, 10 total, 0 blocked and alive, and one connection of 100 bytes from the server: up reads 1, r1 reads 3/10/0/1, the byte series labelled (r1, host, 10.0.0.1:1, 10.0.0.2:2) reads 100, and r1 and its connection are stored. |
| CycleProperties.RouterDownAfterHealthyCycle | main.go:139-237 | If the router is down in the next cycle, up reads 0 and r1's four route gauges read 0. The cycle ends in the nil dereference, the snapshot is unchanged, and the byte series still reads 100. |

## Left out

- TLS and client setup (`initialClient`, `initializeClientOptions`) are not modelled; the client is an oracle of fetch results.
- The background loop and its sleep (`recordMetrics`), `main`, flag parsing and the HTTP handler are not modelled; one cycle is one call.
- Gauge registration, names and help texts are not modelled. The registry starts empty, so the label-less `up` gauge reads nothing until the first cycle writes it. The real gauge reads 0 from registration.
- `writeError` is modelled as appending the message to an error log; the standard-error formatting is not.
- Gauge values are unbounded integers, not `float64`. Every value the cycle writes is an integer count, flag value or millisecond time.
- ConnectionValueUnits: times are the integer Unix seconds the client reports (`Unix()` is given). The int64 product `Unix() * 1000` and its conversion to `float64` are not modelled, so overflow and rounding are out of scope.
- Rendered times (`TimeStarted.String()`, `TimeLastRefreshSucceeded.String()`) are kept as opaque strings.
- Calls that take a name are functions of that name within one cycle: two routes or metadata entries with the same name get the same answers.
- The nil dereference is a Go panic that ends the program. The model ends the cycle there with exit `NilDereference`; the calls made before it stay in the registry, and nothing after it runs.
- Concurrency between the collection goroutine and concurrent scrapes of the registry is not modelled.
