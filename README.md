# Fleet telemetry: ingestion, alerting and fleet aggregates

This project models the core of a FastAPI fleet-management service in Dafny.

- **Telemetry ingestion** (`telemetry.dfy`, module `Telemetry`). A vehicle submits a reading: vin, position, speed, engine status, fuel level, odometer and diagnostic code. Two threshold rules run first:
  - the over-speed rule raises an alert of type 1 when the speed is strictly above 120;
  - the low-fuel rule raises an alert of type 2 when the fuel is strictly below 0.15.

  The reading is then stored as a new telemetry row. The single endpoint does this once. The batch endpoint does it for each element of its list, in order. A lookup by telemetry id returns the row or "not found".
  - The tables are modelled as the class `Store`: sequences of readings and alerts, plus the autoincrement counters. Its methods update them in place.
  - Each method that updates the tables is proved equal to a pure function on `Tables`. The properties are lemmas about those functions.
- **Fleet aggregates**. Each is a function over the tables. The handlers' accumulator loops are methods proved equal to those functions.
  - `fleet_stats.dfy`, module `FleetStats`: the vehicle rows, the latest reading of a vehicle, the readings before a cutoff, the vins of a fleet, and the number of active and inactive vehicles.
  - `fleet_fuel.dfy`, module `FleetFuel`: the mean of the latest fuel level over the vehicles of a fleet.
  - `fleet_distance.dfy`, module `FleetDistance`: the distance a fleet covered in the 24 hours before its latest reading.
  - `alert_summary.dfy`, module `AlertStats`: the count of alerts by type, and the order in which the types first occur.
- **Cache-gated endpoints** (`fleet_endpoints.dfy`, module `FleetEndpoints`). A key/value cache sits in front of the average-fuel and distance endpoints. Each endpoint is a function from the cache and the tables to a reply and the new cache. The class `FleetCache` holds the cache as a field, and its handlers are proved equal to those functions.

Modelling choices:
- Numbers are exact `real`s.
- Timestamps are integer seconds.
- The database clock is a parameter: `now` for one submission, one value per element for a batch.
- A cached value either parses as a number (`Number`) or does not (`Malformed`).

The model follows the code as written. There is no credential check, rate limiting, de-duplication of readings or cache invalidation anywhere on these paths. A vehicle is active when any of its readings has the engine on. The distance cutoff is the fleet's latest reading minus 24 hours, not the wall clock.

## Model

| member | source | states |
|---|---|---|
| Telemetry.RowFor | telemetry/router.py:31-40 | the stored row copies all eight submitted fields and takes the next telemetry id and the database clock |
| Telemetry.Raised | telemetry/router.py:9-29 | a speed alert iff speed > 120, a fuel alert iff fuel < 0.15, all for the reading's vin, 0, 1 or 2 of them, speed before fuel when both fire |
| Telemetry.RaiseAlert | telemetry/router.py:11-16 | committing an alert appends exactly one alert of the given vin and type and keeps every stored row |
| Telemetry.RaiseAlertWellFormed | telemetry/router.py:11-16 | committing an alert keeps ids increasing in storage order and below the next id |
| Telemetry.SpeedRule | telemetry/router.py:9-16 | the alert table grows by one type-1 alert for the vin exactly when speed > 120; readings unchanged; old alerts kept |
| Telemetry.FuelRule | telemetry/router.py:18-25 | the alert table grows by one type-2 alert for the vin exactly when fuel < 0.15; readings unchanged; old alerts kept |
| Telemetry.StoreReading | telemetry/router.py:31-44 | appends one row copying the submission, with the next id and the clock value; alerts unchanged |
| Telemetry.StoreReadingWellFormed | telemetry/router.py:31-44 | committing a reading keeps ids increasing in storage order and below the next id |
| Telemetry.Ingest | telemetry/router.py:27-44 | one submission as `handle_telemetry` runs it: the speed rule, the fuel rule, then the reading; `IngestEffect` and `IngestWellFormed` state its effect |
| Telemetry.IngestEffect | telemetry/router.py:27-44 | one submission appends exactly one copied reading and exactly the alerts `Raised(t)`; nothing stored before changes |
| Telemetry.IngestWellFormed | telemetry/router.py:27-44 | one submission keeps the ids of both tables increasing and below their counters |
| Telemetry.AlertsCommittedBeforeReading | telemetry/router.py:28-43 | after both rules, every alert of the submission is stored and its reading is not yet |
| Telemetry.IngestTwiceStoresTwo | telemetry/router.py:27-44 | the same submission twice stores two rows with the same contents and different ids |
| Telemetry.IngestAll | telemetry/router.py:46-51 | the intended batch: `Ingest` of each element of the list in order, each with its own clock value; `IngestAllReadings`, `IngestAllAlerts` and `IngestAllWellFormed` state its effect |
| Telemetry.IngestAllReadings | telemetry/router.py:46-51 | a batch of n appends n readings in input order, each copying its element with its own clock value; earlier readings kept |
| Telemetry.IngestAllAlerts | telemetry/router.py:46-51 | a batch appends the alerts of each element in element order; earlier alerts kept |
| Telemetry.IngestAllWellFormed | telemetry/router.py:46-51 | a batch keeps the ids of both tables increasing and below their counters |
| Telemetry.ModelFields | telemetry/models.py:20-21 | iterating a batch request yields one field pair, `tel` with the list of readings |
| Telemetry.CreateBatchAsWritten | telemetry/router.py:46-51 | the batch handler as written: every request fails with AttributeError on `speed`, and no table is returned to commit |
| Telemetry.BatchAsWrittenStoresNothing | telemetry/router.py:47-50 | the batch handler as written fails on a one-reading batch, while processing the list stores that reading |
| Telemetry.Store.constructor | telemetry/schemas.py:8 | the tables start empty and well-formed |
| Telemetry.Store.AddAlert | telemetry/router.py:11-16 | the new state is `RaiseAlert` of the old one |
| Telemetry.Store.CheckSpeedLimit | telemetry/router.py:9-16 | the new state is `SpeedRule` of the old one |
| Telemetry.Store.CheckFuel | telemetry/router.py:18-25 | the new state is `FuelRule` of the old one |
| Telemetry.Store.HandleTelemetry | telemetry/router.py:27-44 | the new state is `Ingest` of the old one: both rules, then the reading |
| Telemetry.Store.CreateTelemetry | telemetry/router.py:53-57 | reports success and the new state is one `Ingest` |
| Telemetry.Store.CreateTelemetryBatch | telemetry/router.py:46-51 | reports success and the new state is `IngestAll` of the list in order |
| Telemetry.Store.GetTelemetry | telemetry/router.py:65-71 | returns a stored row with the requested id, and NotFound exactly when no row has that id |
| FleetStats.DistinctVins | main.py:40 | a vin is counted iff some reading has it |
| FleetStats.ActiveVins | main.py:39 | a vin is active iff some reading of it has the engine on |
| FleetStats.ActiveInactive | main.py:36-44 | active = number of distinct vins with an "on" reading; inactive = the other distinct vins; both non-negative and summing to the distinct total |
| FleetStats.IngestKeepsActivity | main.py:39-40 | a new reading adds its vin to the known vins, makes it active if the engine is on, and never makes a vin inactive |
| FleetStats.Latest | main.py:55 | the latest reading of a vin is one of its readings with no later one; none iff it has no reading |
| FleetStats.AtOrBefore | main.py:98-106 | keeps exactly the readings at or before the cutoff |
| FleetStats.FleetVins | main.py:72-73 | exactly the vins of the fleet's vehicles |
| FleetFuel.LatestFuelSum | main.py:54-57 | succeeds iff every vin has a reading |
| FleetFuel.LatestFuelSumFirstMissing | main.py:54-56 | a failed sum names the first vin, in fleet order, without a reading |
| FleetFuel.AverageFuel | main.py:51-59 | the sum of latest fuel levels equals the average times the vehicle count; no vehicles gives division by zero |
| FleetFuel.AverageFuelDefined | main.py:51-59 | the average exists iff the fleet has vehicles and each has a reading |
| FleetFuel.LatestFuelSumBounds | main.py:54-57 | the fuel sum of n vins lies between n times the lowest and n times the highest stored level |
| FleetFuel.AverageFuelBounds | main.py:58-59 | the average lies within the range of the stored fuel levels |
| FleetFuel.ComputeAverageFuel | main.py:51-59 | the accumulator loop returns `AverageFuel` |
| FleetFuel.LatestFuelSumStep | main.py:54-57 | step lemma for the loop: one more vehicle adds its latest fuel to the sum, or fails the sum when it has no reading |
| FleetFuel.LatestFuelSumFailureSticks | main.py:54-56 | once the sum fails at a vehicle, the whole loop fails the same way |
| FleetDistance.Contribution | main.py:90-109 | a vehicle with no reading at or before the cutoff adds 0; with odometers non-decreasing, a contribution is never negative |
| FleetDistance.SumContributions | main.py:88-109 | the sum is non-negative for non-decreasing odometers and 0 when every reading is after the cutoff |
| FleetDistance.LatestTimestamp | main.py:75-80 | the largest timestamp among the fleet's readings; none iff the fleet has no reading |
| FleetDistance.TotalDistance | main.py:75-109 | the distance computation: no result when the fleet has no reading, otherwise the sum of contributions at one day before the latest fleet reading; `TotalDistanceOutcome` and `TotalDistanceCutoff` state its properties |
| FleetDistance.TotalDistanceOutcome | main.py:75-109 | no result iff the fleet has no reading; otherwise a total that is non-negative for non-decreasing odometers |
| FleetDistance.TotalDistanceCutoff | main.py:85-86 | the computed total is the sum of contributions at a cutoff exactly 86400 s before the fleet's latest reading |
| FleetDistance.LatestIsDayAfterCutoff | main.py:75-86 | the cutoff is one day before a fleet reading that no fleet reading follows |
| FleetDistance.SumDistances | main.py:88-109 | the distance loop returns `SumContributions` |
| FleetDistance.ComputeTotalDistance | main.py:75-109 | the latest-timestamp query and the loop together return `TotalDistance` |
| AlertStats.CountOfType | main.py:121-124 | the number of alerts of a type, which the summary dict holds for that type; `HistogramCounts` ties it to the summary |
| AlertStats.FirstSeenTypes | main.py:121-122 | the alert types in order of first occurrence, the insertion order of the summary dict; `FirstSeenTypesDistinct` and `FirstSeenTypesPresent` state its properties |
| AlertStats.Histogram | main.py:119-126 | the summary dict: each present type mapped to its count; `HistogramCounts`, `HistogramSnoc` and `HistogramTotal` state its properties |
| AlertStats.FirstSeenTypesSnoc | main.py:120-124 | step lemma for the loop: one more alert appends its type to the first-seen order if new, and its count grows by one |
| AlertStats.FirstSeenTypesDistinct | main.py:121-122 | no type is a key twice |
| AlertStats.FirstSeenTypesPresent | main.py:119-124 | a type is a key iff some alert has it, iff its count is at least 1 |
| AlertStats.HistogramCounts | main.py:119-126 | a key for each alert type present and no other; each value is the number of alerts of that type, at least 1 |
| AlertStats.HistogramSnoc | main.py:121-124 | one more alert sets its type's entry to 1 if new, else adds 1; no other entry changes |
| AlertStats.HistogramTotal | main.py:119-126 | the counts of the summary add up to the number of alerts |
| AlertStats.AlertSummary | main.py:115-126 | the summary loop returns `Histogram` |
| FleetEndpoints.NatString | main.py:63 | a non-empty string of decimal digits, one digit exactly for numbers below 10 |
| FleetEndpoints.DecimalString | main.py:63 | a non-empty string starting with '-' exactly for negative ids |
| FleetEndpoints.NatStringInjective | main.py:63 | different numbers are written differently |
| FleetEndpoints.DecimalStringInjective | main.py:63 | different fleet ids are written differently |
| FleetEndpoints.CacheKeysDistinct | main.py:48-63 | per-fleet keys are distinct across fleets and kinds, and the literal key is none of them |
| FleetEndpoints.Get | main.py:48 | a GET reply is nothing iff the key is absent, otherwise the stored value |
| FleetEndpoints.AvgFuelLevelsAsWritten | main.py:46-59 | the handler as written returns the cached reply under the literal key and leaves the cache as it was |
| FleetEndpoints.AvgFuelLevels | main.py:51-59 | a stored number is returned with the cache unchanged; otherwise the answer is `AverageFuel`; a failure writes nothing; a success is stored under the fleet's key |
| FleetEndpoints.AsWrittenNeverComputes | main.py:48-50 | empty cache, one vehicle with fuel 0.5: the handler as written answers nothing, the per-fleet handler answers 0.5 |
| FleetEndpoints.AsWrittenSharedByFleets | main.py:48-50 | the handler as written answers every fleet alike |
| FleetEndpoints.AvgFuelLevelsStable | main.py:51-59 | asking twice gives the same answer and the second call writes nothing |
| FleetEndpoints.AvgFuelLevelsFrame | main.py:58 | every key other than the fleet's own average-fuel key reads the same after a call |
| FleetEndpoints.AvgFuelLevelsFrameKeys | main.py:58 | in particular, other fleets' average-fuel keys, every distance key and the literal key are left as they were |
| FleetEndpoints.AvgFuelLevelsBounds | main.py:51-59 | with stored levels and cached number in [lo, hi], the answer lies in [lo, hi] |
| FleetEndpoints.TotalDistanceTraveled | main.py:61-112 | a stored number is returned unchanged; with no fleet reading the answer is 0.0 and nothing is written; a computed total is answered and stored under the fleet's key |
| FleetEndpoints.TotalDistanceNoReadings | main.py:75-83 | with no fleet reading and no cached number, the answer is 0.0 and the cache is unchanged |
| FleetEndpoints.DistanceHitIgnoresTables | main.py:63-66 | on a cached number the answer does not depend on the tables |
| FleetEndpoints.TotalDistanceStable | main.py:63-111 | asking twice gives the same answer and the second call writes nothing |
| FleetEndpoints.TotalDistanceFrame | main.py:111 | every key other than the fleet's own distance key reads the same after a call |
| FleetEndpoints.TotalDistanceFrameKeys | main.py:111 | in particular, other fleets' distance keys, every average-fuel key and the literal key are left as they were |
| FleetEndpoints.TotalDistanceNonNegative | main.py:88-109 | with non-decreasing odometers and no negative cached number, the answer is non-negative |
| FleetEndpoints.FleetCache.constructor | database.py:6 | the cache starts empty |
| FleetEndpoints.FleetCache.GetAvgFuelLevelsAsWritten | main.py:46-59 | the reply and the new cache are those of `AvgFuelLevelsAsWritten` |
| FleetEndpoints.FleetCache.GetAvgFuelLevels | main.py:46-59 | the reply and the new cache are those of `AvgFuelLevels` |
| FleetEndpoints.FleetCache.GetTotalDistanceTraveled | main.py:61-112 | the reply and the new cache are those of `TotalDistanceTraveled` |

## Left out

- HTTP framing, status codes and JSON shapes. A handler's reply is its value, and the 404 of a lookup is `NotFound`.
- The Redis client itself. The cache is a map, and parsing a stored value is abstracted to `Number`/`Malformed`.
- The 86400-second expiry of the distance entry (main.py:111). Time-based eviction is not modelled.
- Concurrency between requests, and the separate sessions each handler opens.
- IEEE floating point: speed, fuel, position and odometer are exact reals.
- The odometer column is declared Integer (telemetry/schemas.py:13). The model stores the submitted value unchanged.
- The database clock. Each submission's three commits take one `now` value, and a batch takes one value per element.
- The order of rows with equal timestamps under `ORDER BY timestamp DESC`. It is unspecified in SQL; `Latest` picks the row stored last.
- AlertStats.AlertSummary: returns an unordered map, so the insertion order of the summary dict (main.py:119-126), which is also the key order of the JSON reply, is not part of its result. `FirstSeenTypes` specifies that order, and `HistogramTotal` sums the counts in it, but no method returns it.
- FleetStats.Latest: the fuel query at main.py:55 applies `.distinct()` to the fuel column while ordering by the timestamp, which it does not select. Whenever a vehicle's fuel value repeats, the query is ill-defined: standard SQL rejects it, and an engine that accepts it may sort a repeated value by any of its timestamps, so with fuel 0.5 at t1, 0.3 at t2 and 0.5 at t3 it can return 0.3. The model takes the fuel of the latest row.
- The listing endpoint `GET /all` (telemetry/router.py:59-63). It returns the whole table and has no logic to model.
- Table creation. alert/schemas.py declares `Alert` on its own declarative base, so main.py:24 does not create the alerts table. The model assumes the table exists.
- Seeding (main.py:128-197), the CRUD routers of the other entities, and password hashing in database.py.

## Findings

| source | as written | input that shows it | evidently intended | confidence | as-written member | corrected member |
|---|---|---|---|---|---|---|
| telemetry/router.py:49 | `for tel in telemetry` iterates the request model's fields. It yields the pair `('tel', [...])`, and the speed rule then reads `.speed` of that pair and raises. Every batch fails and nothing is stored; `Telemetry.CreateBatchAsWritten` models the handler as written. | a batch holding one reading | process each element of `telemetry.tel` in order | not executed | Telemetry.BatchAsWrittenStoresNothing | Telemetry.Store.CreateTelemetryBatch |
| main.py:48-50 | The key `"{fleet_id}avgFuel"` has no `f` prefix, so every fleet shares one literal key. The guard `cache != -1` holds for both possible replies, `None` and bytes. So the handler returns whatever is stored (null when nothing is), never computes and never writes. | an empty cache and a fleet with one vehicle whose reading has fuel 0.5 | read and write a per-fleet key and recompute unless a number is stored, as the distance handler does | not executed | FleetEndpoints.AsWrittenNeverComputes | FleetEndpoints.AvgFuelLevels |
