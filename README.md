# Trip planner core, modelled in Dafny

This project models the computational core of a trip-planning service. The core has seven parts:

- **Route optimiser** (`RouteOptimizer`). It orders a list of stops and stitches the legs a routing provider returns into one route. It uses one of two heuristics:
  - greedy nearest-neighbour over the provider's distance matrix;
  - a k-d-tree nearest-point walk.
- **Route planner** (`RoutePlanner`). It wraps the optimiser with a default transport mode.
- **Synthetic routing provider** (`MockProvider`). It gives straight-line legs and all-pairs distance and duration matrices.
- **In-process cache** (`LocalCacheProvider`) and the key scheme of `RouteCache`. The cache holds values with time-to-live expiry; `RouteCache` uses namespaced keys with TTLs of one hour and one day.
- **Daily weather report job.** It groups forecast entries by trip day, bands temperature, humidity and wind, and picks a recommendation from a wildcard table.
- **Ticket listing endpoint.** It splits a user's tickets into past and future at the current instant, sorts them, and renders date-times as ISO text.
- **Flight alert job.** It compares each flight's status with the last alert stored for (user, ticket). It upserts a row and enqueues a message when the status is abnormal and new, or when the departure moved by more than an hour.

The modules follow the program's structure:

| module | file | what |
|---|---|---|
| `Wrappers`, `Geo` | wrappers.dfy, geo.dfy | `Option`/`Result`, points, segments, routes, and the two route invariants `Joins` (a route runs from a to b) and `TotalsAreSums` |
| `Provider` | provider.dfy | the routing-provider interface as a record of functions, the interface contract `Conforms`, and the `MockProvider` class |
| `MockProviderProperties` | provider.dfy | the mock meets the interface; symmetry and size of its matrices |
| `RouteOptimization` | route_optimizer.dfy | the specification functions `Optimized` and `OptimizeCalls`, and the imperative optimiser proved against them |
| `RouteOptimizerProperties` | route_optimizer_properties.dfy | greediness, endpoints, stitching, call counts |
| `RoutePlanning` | route_planner.dfy | the planner |
| `Cache`, `CacheProperties` | cache.dfy | the TTL cache as a state-changing class, with functions over its state |
| `CacheKeys`, `RouteCaching` | route_cache.dfy | the key texts (proved injective and namespace-disjoint) and the `RouteCache` class |
| `WeatherRecommendations` | weather_table.dfy | the recommendation table, the bands and the first-match lookup |
| `WeatherReport` | weather_report.dfy | the per-trip daily report |
| `Tickets` | tickets.dfy | the ticket listing: split, stable sorts, serialisation, status codes |
| `FlightAlerts` | flight_alerts.dfy | the alert rule, the `flight_alerts` table as a class, and the run over all tickets |

Objects that the source updates in place are classes whose methods state their whole new state:

- `MockProvider` (its valid-point set);
- `LocalCacheProvider` (its `cache` and `ttls` dictionaries);
- `RouteCache`;
- `AlertTable`.

The loops of the source are methods proved against specification functions:

- the nearest-neighbour scan;
- the k-d-tree walk;
- the stitching loop;
- the matrix fill;
- the forecast scan;
- the ticket split;
- the alert loop.

The properties the source promises are lemmas about those functions.

### Where the code and its documentation disagree

The docstring of `optimize_route` (core/optimization/route_optimizer.py:57) says that `round_trip` is ignored when an end point is given. The k-d-tree path (route_optimizer.py:79-84) does not ignore it:

- with `round_trip` true and an explicit end different from the start, the route returns to the start and then goes on to the end;
- with `round_trip` false, the return-to-start is dropped and the end is appended.

The model follows the code. `RouteOptimizerProperties.KdStops` states the resulting stop list. The matrix path never returns to the start in that case.

## Model

| member | source | states |
|---|---|---|
| RouteOptimization.ResolveStart | core/optimization/route_optimizer.py:66-67 | the start is the given one; without one it is a listed point |
| RouteOptimization.ResolveEnd | core/optimization/route_optimizer.py:68-69 | the end is the given one; without one it equals the start iff the trip is round or the last point is the start, and without a round trip it is a listed point |
| RouteOptimization.Intermediates | core/optimization/route_optimizer.py:72 | a point is kept iff it is a listed point other than the start and the end; every other point keeps its multiplicity; start and end are absent |
| RouteOptimization.RemoveFirst | core/optimization/route_optimizer.py:107 | `list.remove`: the multiset loses exactly one copy of the point; the length drops by one |
| RouteOptimization.NearestIndex | core/optimization/route_optimizer.py:97-104 | the scan with strict `<` picks the first candidate of least matrix distance |
| RouteOptimization.NearestOrder | core/optimization/route_optimizer.py:91-108 | the greedy visiting order is a permutation of the unvisited points |
| RouteOptimization.KdOrder | core/optimization/route_optimizer.py:22-39 | the k-d-tree walk visits every remaining point exactly once (a permutation) |
| RouteOptimization.KdRoutePoints | core/optimization/route_optimizer.py:79-84 | the k-d path's stop list begins at the start and finishes at the end |
| RouteOptimization.MatrixRoutePoints | core/optimization/route_optimizer.py:86-112 | the matrix path's stop list begins at the start and finishes at the end |
| RouteOptimization.Legs | core/optimization/route_optimizer.py:120-121 | one leg per consecutive pair of stops |
| RouteOptimization.LegCalls | core/optimization/route_optimizer.py:120-121 | call i asks the provider for the route from stop i to stop i+1, with no mode |
| RouteOptimization.Extend | core/optimization/route_optimizer.py:122-128 | appending a leg keeps the totals equal to the sums over the segments, and keeps the route's first coordinate |
| RouteOptimization.Stitched | core/optimization/route_optimizer.py:114-135 | the stitched route begins at the first leg's first coordinate (its full laws are `StitchedSegmentsLaw`, `StitchedTotalsLaw` and `StitchedCoordinatesLaw`) |
| RouteOptimization.FindNearest | core/optimization/route_optimizer.py:96-104 | the imperative scan returns the candidate `NearestIndex` designates |
| RouteOptimization.NearestNeighbourOrder | core/optimization/route_optimizer.py:86-108 | the loop yields the start followed by the greedy order |
| RouteOptimization.OptimizeWithKdtree | core/optimization/route_optimizer.py:12-44 | the loop yields the start, the k-d-tree order, then the start again |
| RouteOptimization.Stitch | core/optimization/route_optimizer.py:114-135 | the loop builds the stitched route of the legs and makes exactly the leg calls |
| RouteOptimization.OrderStops | core/optimization/route_optimizer.py:78-112 | the stop list of the chosen heuristic; one distance-matrix call over start+intermediates+end on the matrix path, none on the k-d path |
| RouteOptimization.OptimizedWithoutIntermediates | core/optimization/route_optimizer.py:74-76 | with nothing between start and end the result is the provider's direct route, from one call |
| RouteOptimization.OptimizedWithIntermediates | core/optimization/route_optimizer.py:78-135 | otherwise the result stitches the legs over the ordered stops; the calls are the optional matrix call followed by the leg calls |
| RouteOptimization.Optimized | core/optimization/route_optimizer.py:46-135 | the result is a failure iff no points are given |
| RouteOptimization.OptimizeCalls | core/optimization/route_optimizer.py:46-135 | the optimiser calls its provider at least once iff some point is given |
| RouteOptimization.OptimizeRoute | core/optimization/route_optimizer.py:46-135 | the method computes `Optimized` with the calls `OptimizeCalls`; it fails (ValueError) exactly when no points are given, and then calls nothing |
| RouteOptimization.GetRouteStatistics | core/optimization/route_optimizer.py:137-153 | totals copied; segment count; the averages times the count give the totals; 0 without segments |
| RouteOptimizerProperties.NearestIsMinimal | core/optimization/route_optimizer.py:100-104 | the chosen point is no farther than any unvisited point |
| RouteOptimizerProperties.NearestOrderIsGreedy | core/optimization/route_optimizer.py:91-108 | the order is a permutation, and every step goes to a nearest point among those not yet visited |
| RouteOptimizerProperties.NearestOrderHead | core/optimization/route_optimizer.py:100-104 | the first step is strictly nearer than every candidate listed before it (ties go to the earliest) |
| RouteOptimizerProperties.MatrixStops | core/optimization/route_optimizer.py:86-112 | the matrix path's stops are start, a permutation of the intermediates, end |
| RouteOptimizerProperties.KdStops | core/optimization/route_optimizer.py:79-84 | the k-d path's stops are start, a permutation of the intermediates, then end (no round trip), start (round trip ending at start) or start then end (round trip with a different end) |
| RouteOptimizerProperties.ClosedWalkStops | core/optimization/route_optimizer.py:42-44 | dropping the closing start when not a round trip, and appending a differing end, gives that list |
| RouteOptimizerProperties.StopsEndpoints | core/optimization/route_optimizer.py:78-112 | on either path the stops begin at the start and finish at the end |
| RouteOptimizerProperties.MatrixPathStops | core/optimization/route_optimizer.py:86-112 | the matrix path has exactly two stops more than there are intermediates |
| RouteOptimizerProperties.StitchedTotals | core/optimization/route_optimizer.py:122-124 | if each leg's totals are the sums over its segments, so are the stitched route's |
| RouteOptimizerProperties.StitchedSegments | core/optimization/route_optimizer.py:122 | one-segment legs give one segment per leg, in leg order |
| RouteOptimizerProperties.StitchedCoordinates | core/optimization/route_optimizer.py:125-128 | two-point legs give legs+1 coordinates, without the repeated joins |
| RouteOptimizerProperties.StitchedJoins | core/optimization/route_optimizer.py:114-135 | legs chaining stop to stop stitch into a route from the first stop to the last |
| RouteOptimizerProperties.FlattenSnoc | core/optimization/route_optimizer.py:122 | a list put at the back of the lists ends up at the back of their concatenation (`Flatten`, defined front to back) |
| RouteOptimizerProperties.LegSumsSnoc | core/optimization/route_optimizer.py:123-124 | a leg put at the back adds its totals at the back of the front-to-back sums `LegsDistance` and `LegsDuration` |
| RouteOptimizerProperties.StitchedSegmentsLaw | core/optimization/route_optimizer.py:115-122 | for any legs, the stitched segments are the concatenation of every leg's segments in leg order |
| RouteOptimizerProperties.StitchedTotalsLaw | core/optimization/route_optimizer.py:116-124 | for any legs, the stitched distance and duration are the sums of the legs' totals |
| RouteOptimizerProperties.StitchedCoordinatesLaw | core/optimization/route_optimizer.py:118-128 | for any legs, the coordinates are the first leg's followed by every later leg's without its first point; none for no legs |
| RouteOptimizerProperties.LegsChain | core/optimization/route_optimizer.py:120-121 | with a conforming provider each leg runs from its stop to the next and has summed totals |
| RouteOptimizerProperties.LegsEndpoints | core/optimization/route_optimizer.py:114-135 | legs over stops from a first to a last point stitch into a route from first to last with summed totals |
| RouteOptimizerProperties.OptimizedEndpoints | core/optimization/route_optimizer.py:62-69 | for any non-empty list the route succeeds and runs from the chosen start (given, else first point) to the chosen end (given, else start on a round trip, else last point) |
| RouteOptimizerProperties.RoundTripCloses | core/optimization/route_optimizer.py:68-69 | without an end, a round trip's coordinates begin and end at the same point |
| RouteOptimizerProperties.SinglePoint | core/optimization/route_optimizer.py:74-76 | one point gives the provider's route from it to itself, with a single call |
| RouteOptimizerProperties.CallsUseDefaultMode | core/optimization/route_optimizer.py:88 | every provider call the optimiser makes passes no mode |
| RouteOptimizerProperties.StitchedCallModes | core/optimization/route_optimizer.py:121 | the matrix call and the leg calls carry no mode |
| RouteOptimizerProperties.CallsPerStop | core/optimization/route_optimizer.py:86-121 | number of calls = (1 matrix call unless k-d) + one per leg |
| RouteOptimizerProperties.LegCallModes | core/optimization/route_optimizer.py:121 | the leg calls are stops-1 route calls with no mode |
| RouteOptimizerProperties.MockLegsShape | provider/mock_provider.py:33-49 | over the synthetic provider, n stops stitch into n-1 segments and n coordinates |
| RouteOptimizerProperties.MockMatrixShape | core/optimization/route_optimizer.py:86-128 | over the synthetic provider the matrix path gives intermediates+1 segments and intermediates+2 coordinates |
| Provider.Speed | provider/mock_provider.py:25-31 | every mode has a positive speed; no mode means driving at 13.89 m/s |
| Provider.MatrixOf | provider/mock_provider.py:57-65 | the matrix has a key exactly for every ordered pair of listed points |
| Provider.MockRoute | provider/mock_provider.py:14-49 | one segment in the given mode (driving by default), coordinates [start, end], totals equal to the segment's, duration times speed equals distance |
| Provider.MockProvider.constructor | provider/mock_provider.py:7-8 | a new provider has no valid points |
| Provider.MockProvider.AddValidPoint | provider/mock_provider.py:10-12 | the point joins the valid set; nothing else changes |
| Provider.MockProvider.IsValidPoint | provider/mock_provider.py:90-96 | a point is valid iff it was added |
| Provider.MockProvider.GetDistanceMatrix | provider/mock_provider.py:51-65 | the nested loop fills the distance matrix |
| Provider.MockProvider.GetDurationMatrix | provider/mock_provider.py:67-88 | the nested loop fills the duration matrix (distance over the mode's speed) |
| Provider.FillMatrix | provider/mock_provider.py:57-65 | the imperative double loop produces `MatrixOf`: 0 on the diagonal, the off-diagonal value elsewhere |
| Provider.FilledMatrix | provider/mock_provider.py:57-65 | a map with those keys and those entries is that matrix |
| MockProviderProperties.MockConforms | provider/base.py:28-66 | the synthetic provider meets the interface contract: legs join their endpoints with summed totals; matrices cover all pairs with a 0 diagonal |
| MockProviderProperties.RouteToSelfIsFree | provider/mock_provider.py:22-31 | a leg from a point to itself has zero distance and duration |
| MockProviderProperties.DistanceMatrixSymmetric | test/test_mock_provider.py:40-43 | the distance matrix is symmetric |
| MockProviderProperties.DurationMatrixEntries | provider/mock_provider.py:67-88 | the duration matrix has a 0 diagonal, is symmetric, and each entry is the distance over the speed |
| MockProviderProperties.PairsCount | test/test_mock_provider.py:32-33 | n distinct points have n*n ordered pairs |
| MockProviderProperties.DistanceMatrixSize | test/test_mock_provider.py:32-33 | the matrix of n distinct points has n*n entries |
| MockProviderProperties.ValidPointsScenario | test/test_mock_provider.py:66-79 | for any two distinct points p and q: a new provider accepts neither; after adding p it accepts p and still rejects q |
| Cache.CacheGet | storage/cache.py:45-52 | a value is answered iff the key is stored and its expiry has not passed, and then nothing changes; otherwise the key holds no value afterwards |
| Cache.CacheSet | storage/cache.py:54-61 | the value is always stored; a truthy ttl whose expiry is representable writes that expiry, otherwise the expiries are unchanged; every expiry keeps a stored value |
| Cache.CacheDelete | storage/cache.py:63-69 | reports true iff a value was stored; afterwards the key holds no value; every expiry keeps a stored value |
| Cache.LocalCacheProvider.constructor | storage/cache.py:41-43 | a new cache holds nothing and no expiries |
| Cache.LocalCacheProvider.Get | storage/cache.py:45-52 | the state and the answer are `CacheGet` of the old state |
| Cache.LocalCacheProvider.Set | storage/cache.py:54-61 | the state is `CacheSet` of the old state; it reports success iff no expiry is written or the expiry `now + ttl` does not pass 9999-12-31T23:59:59 (`SetSucceeds`) |
| Cache.LocalCacheProvider.Delete | storage/cache.py:63-69 | the state and the answer are `CacheDelete` of the old state |
| CacheProperties.GetMissing | storage/cache.py:45-52 | an absent key reads as None and changes nothing |
| CacheProperties.SetThenGet | storage/cache.py:45-58 | a value set at t with a non-zero ttl (and a representable expiry) is read back iff now <= t+ttl; after that the read evicts it |
| CacheProperties.SetOverflow | storage/cache.py:54-61 | when t+ttl overflows `datetime`, set reports failure, yet the value is stored, the old expiry stays, and the value reads back until that old expiry |
| CacheProperties.SetWithoutTtl | storage/cache.py:57-58 | a missing or zero ttl leaves the expiries untouched; the value reads back unless an older expiry has passed |
| CacheProperties.GetEvicts | storage/cache.py:47-50 | reading an expired key answers None and drops both its value and its expiry |
| CacheProperties.DeleteRemoves | storage/cache.py:63-69 | delete reports true iff the key was present; afterwards neither value nor expiry remains |
| CacheProperties.DeleteTwice | storage/cache.py:63-69 | a second delete of the same key reports false |
| CacheProperties.OtherKeysUnchanged | storage/cache.py:45-69 | get, set and delete leave every other key's value and expiry as they were |
| CacheProperties.ConsistencyPreserved | storage/cache.py:40-69 | every expiry belongs to a stored value, and each operation keeps it so |
| CacheKeys.RouteKey | storage/cache.py:78 | a route key is a non-empty text in the `route:` namespace |
| CacheKeys.DistanceKey | storage/cache.py:86 | a distance key is a non-empty text in the `distance:` namespace |
| CacheKeys.MatrixKey | storage/cache.py:94 | a matrix key is in the `matrix:` namespace, with text after it when points are given |
| CacheKeys.NaturalTextInjective | storage/cache.py:78 | distinct naturals have distinct decimal texts |
| CacheKeys.IntegerTextInjective | storage/cache.py:78 | distinct integers have distinct texts |
| CacheKeys.PointTextInjective | storage/cache.py:78 | distinct points have distinct `lat,lon` texts |
| CacheKeys.PairTextInjective | storage/cache.py:78 | the `src:dst` text determines both points |
| CacheKeys.PrefixedPairInjective | storage/cache.py:78 | the same with a namespace prefix |
| CacheKeys.RouteKeyDetermines | storage/cache.py:77-83 | a route key determines its source and destination |
| CacheKeys.RouteKeyInjective | storage/cache.py:77-83 | two route keys are equal iff their pairs are; a route and its reverse share a key iff the endpoints coincide |
| CacheKeys.DistanceKeyInjective | storage/cache.py:85-91 | two distance keys are equal iff their pairs are |
| CacheKeys.PointsTextInjective | storage/cache.py:94 | the comma-joined text of a point list determines the list |
| CacheKeys.MatrixKeyInjective | storage/cache.py:93-99 | two matrix keys are equal iff their point lists are equal, order included |
| CacheKeys.NamespacesDisjoint | storage/cache.py:77-99 | route, distance and matrix keys never collide |
| RouteCaching.RouteCache.constructor | storage/cache.py:72-75 | the cache wraps the given provider with TTLs 3600 s and 86400 s |
| RouteCaching.RouteCache.GetRoute | storage/cache.py:77-79 | reads the route key of the pair |
| RouteCaching.RouteCache.SetRoute | storage/cache.py:81-83 | writes the route under the route key with the route TTL; it reports whether the expiry was representable |
| RouteCaching.RouteCache.GetDistance | storage/cache.py:85-87 | reads the distance key of the pair |
| RouteCaching.RouteCache.SetDistance | storage/cache.py:89-91 | writes the distance with the distance TTL; it reports whether the expiry was representable |
| RouteCaching.RouteCache.GetDistanceMatrix | storage/cache.py:93-95 | reads the matrix key of the point list |
| RouteCaching.RouteCache.SetDistanceMatrix | storage/cache.py:97-99 | writes the matrix with the distance TTL; it reports whether the expiry was representable |
| RouteCaching.RouteEntryLifetime | storage/cache.py:74-83 | a cached route is served iff at most one hour has passed (when t+3600 is representable) |
| RouteCaching.DistanceEntryLifetime | storage/cache.py:75-99 | a cached distance or matrix is served iff at most one day has passed (when t+86400 is representable) |
| RouteCaching.WritesSucceed | storage/cache.py:74-99 | a write at a representable time fails only within the last hour (routes) or day (distances, matrices) before year 10000 |
| RouteCaching.ReverseRouteUntouched | storage/cache.py:81-83 | caching a→b leaves the entry for b→a as it was |
| RoutePlanning.NewRoutePlanner | core/workflow/route_planner.py:6-20 | the planner and its optimiser share the provider; the k-d flag and default mode are kept |
| RoutePlanning.ChosenMode | core/workflow/route_planner.py:42 | the given mode, else the default |
| RoutePlanning.PlanRoute | core/workflow/route_planner.py:22-52 | the optimiser's route with the given start, end and round-trip flag; fails iff no points |
| RoutePlanning.PlanIgnoresMode | core/workflow/route_planner.py:42-50 | the chosen mode does not reach the optimiser: any two modes give the same route |
| RoutePlanning.GetDistanceMatrix | core/workflow/route_planner.py:54-56 | the provider's matrix covers every pair, 0 on the diagonal |
| RoutePlanning.GetDurationMatrix | core/workflow/route_planner.py:58-60 | the same for durations |
| RoutePlanning.GetRouteStatistics | core/workflow/route_planner.py:62-68 | totals copied; average speed times duration is the distance when the duration is positive, else 0 |
| WeatherRecommendations.KeyAt | trip-planner-notifications/write_weather_report/app.py:26-69 | the entries before the last are patterns; the last and beyond are `default` |
| WeatherRecommendations.TempBandOf | trip-planner-notifications/write_weather_report/app.py:148-152 | cold iff the maximum is at most 10, mild iff in (20, 25], hot iff above 30 |
| WeatherRecommendations.HumidityBandOf | trip-planner-notifications/write_weather_report/app.py:153 | high iff the average is at least 60 |
| WeatherRecommendations.WindBandOf | trip-planner-notifications/write_weather_report/app.py:154 | calm iff the average is at most 5, high iff above 10 |
| WeatherRecommendations.Lookup | trip-planner-notifications/write_weather_report/app.py:157-161 | a found entry is a pattern entry (never `default`) whose key matches |
| WeatherRecommendations.Recommend | trip-planner-notifications/write_weather_report/app.py:157-161 | the text is one of the table's texts, and the `default` text when no key matches |
| WeatherRecommendations.TempBandMonotone | trip-planner-notifications/write_weather_report/app.py:148-152 | a warmer maximum never gives a colder band; the band changes only across 10, 20, 25 or 30 degrees |
| WeatherRecommendations.WindBandMonotone | trip-planner-notifications/write_weather_report/app.py:154 | a stronger wind never gives a calmer band; the band changes only across 5 or 10 m/s |
| WeatherRecommendations.FirstMatchFrom | trip-planner-notifications/write_weather_report/app.py:158-161 | a found position lies in range and its key matches |
| WeatherRecommendations.FirstMatchAt | trip-planner-notifications/write_weather_report/app.py:158-161 | the lookup answers the earliest matching entry in table order |
| WeatherRecommendations.NoMatchFrom | trip-planner-notifications/write_weather_report/app.py:158-161 | without a matching key the lookup answers none |
| WeatherRecommendations.SomeMatchFrom | trip-planner-notifications/write_weather_report/app.py:158-161 | a matching key guarantees an answer |
| WeatherRecommendations.SameMatchesSameFirst | trip-planner-notifications/write_weather_report/app.py:158-161 | observations matched by the same keys get the same answer |
| WeatherRecommendations.DefaultIsLast | trip-planner-notifications/write_weather_report/app.py:26-69 | `default` is the last entry and every other entry is a pattern |
| WeatherRecommendations.HumidityMattersOnlyForClearHotCalm | trip-planner-notifications/write_weather_report/app.py:28-37 | humidity changes the recommendation only for clear, hot and calm weather |
| WeatherRecommendations.TempMattersOnlyForClearAndClouds | trip-planner-notifications/write_weather_report/app.py:26-69 | temperature matters only for Clear and Clouds |
| WeatherRecommendations.WindMattersOnlyForFourConditions | trip-planner-notifications/write_weather_report/app.py:26-69 | wind matters only for Clear, Clouds, Mist and Squall |
| WeatherRecommendations.UnknownConditionFallsBack | trip-planner-notifications/write_weather_report/app.py:158-161 | a condition the table does not name gets the `default` text |
| WeatherRecommendations.BandFreeConditionHasEntry | trip-planner-notifications/write_weather_report/app.py:50-63 | Rain, Drizzle, Thunderstorm, Snow, Fog, Smoke, Haze, Dust, Sand, Ash and Tornado always find an entry |
| WeatherRecommendations.BandFreeConditionsIgnoreBands | trip-planner-notifications/write_weather_report/app.py:50-66 | for those conditions the bands do not matter |
| WeatherRecommendations.MistFollowsWind | trip-planner-notifications/write_weather_report/app.py:56-57 | Mist finds entry 24 when calm, 25 when breezy, and the default in high wind |
| WeatherRecommendations.SquallNeedsHighWind | trip-planner-notifications/write_weather_report/app.py:65 | Squall finds its entry only in high wind |
| WeatherRecommendations.ClearAndCloudsGaps | trip-planner-notifications/write_weather_report/app.py:28-48 | Clear or Clouds in high wind, and Clear hot breezy weather, fall back on `default` |
| WeatherRecommendations.ClearAndCloudsCovered | trip-planner-notifications/write_weather_report/app.py:28-48 | every other Clear or Clouds observation has its own entry |
| WeatherReport.EntriesOn | trip-planner-notifications/write_weather_report/app.py:128-130 | a day's entries are no more than the forecast's; which entries they are is `EntriesOnMembers`, and the first of them is `FirstEntryOn` |
| WeatherReport.EntriesOnMembers | trip-planner-notifications/write_weather_report/app.py:128-130 | an entry is among a day's entries iff it is in the forecast with that date |
| WeatherReport.Summary | trip-planner-notifications/write_weather_report/app.py:141-172 | the entry carries the day, condition and figures, and the recommendation for the banded observation |
| WeatherReport.DayEntry | trip-planner-notifications/write_weather_report/app.py:124-172 | a day has a report entry iff it has forecast entries; the entry carries that day, the first entry's condition, the figures summarised over that day's entries, and the recommendation for those figures banded |
| WeatherReport.FirstEntryOn | trip-planner-notifications/write_weather_report/app.py:136-137 | that first entry is the forecast's first entry with the date |
| WeatherReport.DaysReport | trip-planner-notifications/write_weather_report/app.py:123-172 | at most one entry per day, each one that day's entry for a day in the range |
| WeatherReport.AppendDay | trip-planner-notifications/write_weather_report/app.py:163-172 | appending the next day's entry keeps the report in range, ascending and faithful |
| WeatherReport.DaysReportOrdered | trip-planner-notifications/write_weather_report/app.py:124-172 | report days lie in the trip, strictly ascend, and each entry is its day's |
| WeatherReport.DaysReportCoverage | trip-planner-notifications/write_weather_report/app.py:124-139 | a day is reported iff it lies in the range and has an entry |
| WeatherReport.DayEntryLabelled | trip-planner-notifications/write_weather_report/app.py:163-164 | each day's entry is labelled with that day |
| WeatherReport.Report | trip-planner-notifications/write_weather_report/app.py:123-172 | at most one entry per trip day |
| WeatherReport.DayCount | trip-planner-notifications/write_weather_report/app.py:110-124 | `duration or 1`: none for a negative duration, the duration when positive, one when missing or zero |
| WeatherReport.ReportDays | trip-planner-notifications/write_weather_report/app.py:123-172 | the trip report lists days in order within the trip, each with the entry built from that day's forecast |
| WeatherReport.ReportCoverage | trip-planner-notifications/write_weather_report/app.py:123-139 | a day is in the report iff it is a trip day with forecast entries |
| WeatherReport.ReportNonEmpty | trip-planner-notifications/write_weather_report/app.py:174 | the report is non-empty iff some trip day has forecast entries |
| WeatherReport.CollectDay | trip-planner-notifications/write_weather_report/app.py:126-137 | the forecast scan collects exactly the day's entries and the first one's condition |
| WeatherReport.WriteDays | trip-planner-notifications/write_weather_report/app.py:110-184 | the loop builds the report over `duration or 1` days (none when negative); it enqueues iff the report is non-empty |
| WeatherReport.WriteReport | trip-planner-notifications/write_weather_report/app.py:103-184 | the same with the table's recommendation |
| Tickets.DepartureOf | ticket-document-parsing/get-tickets.py:78-80 | a date-time is its instant; text is parsed, and fails (with that text) iff it does not parse |
| Tickets.Departures | ticket-document-parsing/get-tickets.py:76-80 | on success, one dated ticket per ticket |
| Tickets.DeparturesKeepTickets | ticket-document-parsing/get-tickets.py:76-80 | parsing succeeds iff every departure is a date-time or parses; each ticket keeps its place with its departure |
| Tickets.Past | ticket-document-parsing/get-tickets.py:81-82 | every listed ticket departs before now; no more tickets than given |
| Tickets.Future | ticket-document-parsing/get-tickets.py:83-84 | every listed ticket departs at or after now; no more tickets than given |
| Tickets.SplitIsPartition | ticket-document-parsing/get-tickets.py:81-84 | past and future together hold every dated ticket (as a multiset) |
| Tickets.PastMembers | ticket-document-parsing/get-tickets.py:81-82 | a ticket is past iff it departs strictly before now |
| Tickets.FutureMembers | ticket-document-parsing/get-tickets.py:83-84 | a ticket is future iff it departs at or after now |
| Tickets.Insert | ticket-document-parsing/get-tickets.py:86-88 | one element longer, and holds the inserted ticket |
| Tickets.Sort | ticket-document-parsing/get-tickets.py:86-88 | the same length as its input |
| Tickets.InsertPermutes | ticket-document-parsing/get-tickets.py:86-88 | insertion adds exactly one element |
| Tickets.InsertSorted | ticket-document-parsing/get-tickets.py:86-88 | insertion keeps the order |
| Tickets.SortPermutes | ticket-document-parsing/get-tickets.py:86-88 | sorting is a permutation |
| Tickets.SortSorted | ticket-document-parsing/get-tickets.py:86-88 | sorting gives newest first when reversed, oldest first otherwise |
| Tickets.DepartingAtAppend | ticket-document-parsing/get-tickets.py:86-88 | the tickets of one departure in a concatenation are those of each part in turn |
| Tickets.InsertIsStable | ticket-document-parsing/get-tickets.py:86-88 | insertion keeps tickets of equal departure in their order |
| Tickets.SortIsStable | ticket-document-parsing/get-tickets.py:86-88 | `sorted` is stable, in both directions |
| Tickets.Rendered | ticket-document-parsing/get-tickets.py:94-98 | a date-time becomes text; text stays as it is |
| Tickets.Serialize | ticket-document-parsing/get-tickets.py:91-99 | only the two date-time fields change |
| Tickets.SerializeAll | ticket-document-parsing/get-tickets.py:102-103 | each ticket serialised, order kept |
| Tickets.ListingBody | ticket-document-parsing/get-tickets.py:101-104 | the body has exactly `past` and `future`: past sorted newest first, future oldest first |
| Tickets.TicketsResponse | ticket-document-parsing/get-tickets.py:14-113 | the status is 200, 400 or 404, and the body is the listing iff it is 200; a 200 is answered only for a known email whose tickets all have readable departures, and its body is the listing of those departures |
| Tickets.ResponseStatus | ticket-document-parsing/get-tickets.py:14-113 | 400 iff the email is missing or empty; 404 iff it is unknown; a raise iff some departure text does not parse |
| Tickets.ListingHoldsEveryTicket | ticket-document-parsing/get-tickets.py:76-104 | both lists together hold every ticket once, each sorted its way |
| Tickets.ListingSides | ticket-document-parsing/get-tickets.py:81-88 | a ticket is listed as past iff it departed before now, as future iff not |
| Tickets.ListingKeepsTies | ticket-document-parsing/get-tickets.py:86-88 | tickets with equal departures keep their stored order on both sides |
| Tickets.SplitNext | ticket-document-parsing/get-tickets.py:81-84 | each further ticket lands on exactly one side |
| Tickets.DeparturesNext | ticket-document-parsing/get-tickets.py:76-80 | each further ticket extends the parsed prefix or is the first failure |
| Tickets.SplitTickets | ticket-document-parsing/get-tickets.py:74-84 | the loop returns the split of the parsed tickets, or the first text that does not parse |
| Tickets.DeparturesFailureKept | ticket-document-parsing/get-tickets.py:79-80 | a failed prefix fails the whole list with the same text |
| Tickets.ListTickets | ticket-document-parsing/get-tickets.py:12-113 | the handler answers `TicketsResponse` |
| FlightAlerts.Lower | Lambda/write_abnormal_data_flight.py:63 | length kept; each character lowered |
| FlightAlerts.CapitalisedStatusesAlert | Lambda/write_abnormal_data_flight.py:63-79 | the capitalised spellings of delayed, cancelled and diverted lower to the abnormal statuses; `Scheduled` does not |
| FlightAlerts.LowerMatchesUpToCase | Lambda/write_abnormal_data_flight.py:63-79 | a status lowers to delayed, cancelled or diverted exactly when it spells that status in any mix of ASCII cases |
| FlightAlerts.StatusOf | Lambda/write_abnormal_data_flight.py:63 | an absent status reads as empty text; a null one raises; a present one is `Lower` of its text |
| FlightAlerts.DepartureOf | Lambda/write_abnormal_data_flight.py:64-65 | an absent departure has no times; a null one raises; a present one is passed on as it is |
| FlightAlerts.CurrentDeparture | Lambda/write_abnormal_data_flight.py:65-68 | the chosen text is `estimated` when truthy, else `scheduled`; with a truthy chosen text the result fails (carrying that text) iff it does not parse, and is its parse otherwise; with none the departure is unknown |
| FlightAlerts.Observe | Lambda/write_abnormal_data_flight.py:63-68 | a null status raises first, then a null departure, then an unparsable time; otherwise the lowered status and the parsed departure |
| FlightAlerts.ShouldAlert | Lambda/write_abnormal_data_flight.py:78-86 | only abnormal statuses alert; a changed abnormal status always alerts; an unchanged abnormal one alerts iff both departures are known and differ by more than 3600 seconds |
| FlightAlerts.UserOf | Lambda/write_abnormal_data_flight.py:47-51 | a known user is looked up; an unknown one has no email and no name |
| FlightAlerts.Decide | Lambda/write_abnormal_data_flight.py:78-86 | the send flag: only delayed, cancelled or diverted send; a changed status always sends; an unchanged one sends iff both departures are known and differ by more than 3600 s |
| FlightAlerts.Step | Lambda/write_abnormal_data_flight.py:59-112 | a ticket without data changes nothing; a null first flight, or a fault while reading it, raises that fault and changes nothing else; a readable flight appends a message iff the rule says to alert against the snapshot, that message carries the user's email and name, the ticket number, the lowered status and the departure, and the key is upserted with that status and departure stamped now; otherwise nothing changes |
| FlightAlerts.StepRecordsAlert | Lambda/write_abnormal_data_flight.py:88-112 | a sent message's status and departure are exactly what is upserted for its key, stamped now; without a message the table is unchanged |
| FlightAlerts.StepTouchesOnlyItsKey | Lambda/write_abnormal_data_flight.py:71-99 | a ticket writes no row but its own (user, ticket) key |
| FlightAlerts.StepFollowsSnapshot | Lambda/write_abnormal_data_flight.py:71-86 | a decision reads the snapshot only at its own key |
| FlightAlerts.Replay | Lambda/write_abnormal_data_flight.py:42-112 | at most one message per ticket; no row of the table is removed |
| FlightAlerts.ReplayKeepsOtherKeys | Lambda/write_abnormal_data_flight.py:42-99 | rows of keys no ticket refers to are kept |
| FlightAlerts.DecisionsFollowSnapshot | Lambda/write_abnormal_data_flight.py:36-86 | the messages depend only on the snapshot at the run's own keys, never on earlier upserts |
| FlightAlerts.MessagesAreAbnormal | Lambda/write_abnormal_data_flight.py:79-112 | every message carries an abnormal status |
| FlightAlerts.SnapshotRepeatsAlert | Lambda/write_abnormal_data_flight.py:36-42 | a ticket listed twice alerts twice, because the snapshot is not refreshed |
| FlightAlerts.AlertTable.constructor | Lambda/write_abnormal_data_flight.py:36-39 | the table holds the given rows |
| FlightAlerts.AlertTable.Upsert | Lambda/write_abnormal_data_flight.py:88-99 | the key's row becomes the new status, departure and time; no other row changes |
| FlightAlerts.Handle | Lambda/write_abnormal_data_flight.py:36-112 | the loop leaves the table and the messages of `Replay` over the snapshot; a raise ends the run with the rows already written |
| FlightAlerts.ReplayStopsAtRaise | Lambda/write_abnormal_data_flight.py:42-68 | once a ticket raises, later tickets are not processed |

## Left out

- The OSRM provider, Redis, MySQL, SQS, HTTP calls, the flight and weather APIs, logging, response headers and CORS are left out. Their answers are parameters: the users table, the tickets of a user, the flight API's first record, and the forecast list.
- Async execution is left out; every call is modelled as sequential.
- Floating point is left out. Distances and durations are exact `real`s. The mock's Euclidean distance times 111000 (a square root) is a `distance` parameter required to be zero on the diagonal, symmetric and non-negative.
- Points are integer micro-degrees. The cache keys render coordinates as integer text instead of Python's float `repr`. Both renderings are injective, which is what the key properties use.
- The k-d tree's internals (scipy `cKDTree`) are left out. The nearest-point query is an oracle that returns a member of the remaining points. Nearest-ness with respect to coordinates is not stated.
- The abstract `RoutingProvider` base class is a record of four functions with the contract `Conforms`, because traits are not used.
- The weather report's Kelvin conversion, averaging and rounding (app.py:132-145) are a `summarize` parameter that gives each day's rounded figures. The bands are computed from those figures in the model.
- Days are whole numbers. The `dt_txt.startswith(day)` test is equality of an entry's day with the trip day.
- The recommendation table's keys are held already split into their four parts; the `split('|')` and `zip` of the lookup are not modelled.
- `str.lower` is modelled on ASCII letters only.
- The MySQL collation of the email lookup (case-insensitive matching) is left out; emails are compared exactly.
- ISO parsing (`fromisoformat`) and ISO rendering (`isoformat`) are parameters. Instants are whole seconds on one time line, so time zones are left out.
- The `TypeError` Python would raise when comparing an aware and a naive date-time is left out.
- The scheduled departure read from the tickets query at write_abnormal_data_flight.py:45 is unused by the source and left out.
- `datetime.now()` is a `now` parameter.
- The cache's clock counts whole seconds from 0001-01-01T00:00:00. Sub-second precision of `datetime.now()` is left out, so the overflow bound of `set` is exact to the second.
- Exceptions other than the `datetime` overflow inside `set` (for example an unhashable key) are left out; keys are strings.
- The flight API's fields are modelled as absent, `null` or a value of the expected type. A status that is not a string, or a departure that is not an object, is left out.
- JSON encoding of bodies and messages is left out; bodies are datatypes.
- RouteOptimizerProperties.NearestOrderIsGreedy: states greediness with respect to the distance matrix only. The matrix's relation to geometry is the provider's business.
- MockProviderProperties.DistanceMatrixSize: states the n*n size only for distinct points; with repeated points the dictionary has fewer keys, as in Python.
