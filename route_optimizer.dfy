/**
 * The route optimizer (core/optimization/route_optimizer.py): resolve the
 * start and end, drop them from the points to visit, order the rest with a
 * nearest-neighbour heuristic (over the provider's distance matrix, or over
 * an opt-in k-d tree whose nearest query is an oracle here), then stitch one
 * provider leg per consecutive pair into a single Route.
 *
 * Each imperative step is a method proved equal to a specification function;
 * the lemmas in RouteOptimizerProperties state what those functions promise.
 */
module RouteOptimization {
  import opened Wrappers
  import opened Geo
  import opened Provider

  /**
   * An optimizer: the provider it asks for legs and matrices, whether it uses
   * the k-d tree path, and that tree's nearest query, which answers with one
   * of the points still to be visited.
   */
  datatype RouteOptimizer = RouteOptimizer(
    provider: RoutingProvider,
    useKdtree: bool,
    kdNearest: (Point, seq<Point>) -> Point)

  datatype OptimizeError = NoPointsProvided

  /** A call the optimizer makes on its provider, with the mode it passes. */
  datatype ProviderCall =
    | RouteCall(start: Point, end: Point, mode: Option<TransportMode>)
    | DistanceMatrixCall(points: seq<Point>, mode: Option<TransportMode>)

  ghost predicate IsNearestOracle(query: (Point, seq<Point>) -> Point) {
    forall current, remaining :: |remaining| > 0 ==> query(current, remaining) in remaining
  }

  ghost predicate Ready(optimizer: RouteOptimizer) {
    Conforms(optimizer.provider) && IsNearestOracle(optimizer.kdNearest)
  }

  /** The start: the explicit one, else the first point. */
  function ResolveStart(points: seq<Point>, start: Option<Point>): (s: Point)
    requires |points| > 0
    ensures start.Some? ==> s == start.value
    ensures start.None? ==> s in points
  {
    if start.None? then points[0] else start.value
  }

  /** The end: the explicit one, else the start on a round trip, else the last point. */
  function ResolveEnd(points: seq<Point>, start: Point, end: Option<Point>, roundTrip: bool): (e: Point)
    requires |points| > 0
    ensures end.Some? ==> e == end.value
    ensures end.None? ==> (e == start <==> roundTrip || points[|points| - 1] == start)
    ensures end.None? && !roundTrip ==> e in points
  {
    if end.None? then (if roundTrip then start else points[|points| - 1]) else end.value
  }

  /** The points with every occurrence of `start` and of `end` removed, in input order. */
  function Intermediates(points: seq<Point>, start: Point, end: Point): (rest: seq<Point>)
    ensures forall p :: p in rest <==> p in points && p != start && p != end
    ensures forall p :: p != start && p != end ==> multiset(rest)[p] == multiset(points)[p]
    ensures start !in multiset(rest) && end !in multiset(rest)
    decreases |points|
  {
    if |points| == 0 then []
    else
      var last := points[|points| - 1];
      assert points == points[..|points| - 1] + [last];
      Intermediates(points[..|points| - 1], start, end) + (if last != start && last != end then [last] else [])
  }

  /** Python's `list.remove`: drop the first occurrence of `x`. */
  function RemoveFirst(s: seq<Point>, x: Point): (r: seq<Point>)
    requires x in s
    ensures multiset(r) == multiset(s) - multiset{x}
    ensures |r| == |s| - 1
    ensures forall y :: y in r ==> y in s
  {
    if s[0] == x then
      assert s == [s[0]] + s[1..];
      s[1..]
    else
      assert s == [s[0]] + s[1..];
      [s[0]] + RemoveFirst(s[1..], x)
  }

  /** Every ordered pair of `points` has a matrix entry. */
  predicate CoversAll(matrix: map<(Point, Point), real>, points: seq<Point>) {
    forall a, b :: a in points && b in points ==> (a, b) in matrix
  }

  lemma CoversSubset(matrix: map<(Point, Point), real>, points: seq<Point>, sub: seq<Point>)
    requires CoversAll(matrix, points)
    requires forall p :: p in sub ==> p in points
    ensures CoversAll(matrix, sub)
  {
  }

  /**
   * Index `k` of `candidates` is a nearest one to `current`, and no earlier
   * candidate is as near (the scan replaces its choice only on a strictly
   * smaller distance).
   */
  predicate IsNearest(matrix: map<(Point, Point), real>, current: Point, candidates: seq<Point>, k: nat)
    requires k < |candidates| && forall c :: c in candidates ==> (current, c) in matrix
  {
    && (forall j :: 0 <= j < |candidates| ==> matrix[(current, candidates[k])] <= matrix[(current, candidates[j])])
    && (forall j :: 0 <= j < k ==> matrix[(current, candidates[k])] < matrix[(current, candidates[j])])
  }

  /** The index the left-to-right scan settles on. */
  function NearestIndex(matrix: map<(Point, Point), real>, current: Point, candidates: seq<Point>): (k: nat)
    requires |candidates| > 0 && forall c :: c in candidates ==> (current, c) in matrix
    ensures k < |candidates| && IsNearest(matrix, current, candidates, k)
    decreases |candidates|
  {
    if |candidates| == 1 then 0
    else
      var last := |candidates| - 1;
      var k := NearestIndex(matrix, current, candidates[..last]);
      if matrix[(current, candidates[last])] < matrix[(current, candidates[k])] then last else k
  }

  /** The nearest-neighbour visiting order of `unvisited`, starting from `current`. */
  function NearestOrder(matrix: map<(Point, Point), real>, current: Point, unvisited: seq<Point>): (order: seq<Point>)
    requires CoversAll(matrix, [current] + unvisited)
    ensures multiset(order) == multiset(unvisited)
    decreases |unvisited|
  {
    if |unvisited| == 0 then []
    else
      var next := unvisited[NearestIndex(matrix, current, unvisited)];
      var rest := RemoveFirst(unvisited, next);
      CoversSubset(matrix, [current] + unvisited, [next] + rest);
      [next] + NearestOrder(matrix, next, rest)
  }

  /** The k-d tree path's visiting order: each step takes the oracle's answer over the remaining points. */
  function KdOrder(query: (Point, seq<Point>) -> Point, current: Point, remaining: seq<Point>): (order: seq<Point>)
    requires IsNearestOracle(query)
    ensures multiset(order) == multiset(remaining)
    decreases |remaining|
  {
    if |remaining| == 0 then []
    else
      var next := query(current, remaining);
      [next] + KdOrder(query, next, RemoveFirst(remaining, next))
  }

  lemma ShiftOne(done: seq<Point>, next: Point, todo: seq<Point>)
    ensures (done + [next]) + todo == done + ([next] + todo)
  {
  }

  lemma KdOrderStep(query: (Point, seq<Point>) -> Point, current: Point, remaining: seq<Point>)
    requires IsNearestOracle(query) && |remaining| > 0
    ensures query(current, remaining) in remaining
    ensures KdOrder(query, current, remaining)
      == [query(current, remaining)] + KdOrder(query, query(current, remaining), RemoveFirst(remaining, query(current, remaining)))
  {
  }

  /** The matrix path's stops: start, the nearest-neighbour order, and the end unless already last. */
  function MatrixRoutePoints(matrix: map<(Point, Point), real>, start: Point, rest: seq<Point>, end: Point): (stops: seq<Point>)
    requires CoversAll(matrix, [start] + rest)
    ensures |stops| > 0 && stops[0] == start && stops[|stops| - 1] == end
  {
    var visited := [start] + NearestOrder(matrix, start, rest);
    if end != visited[|visited| - 1] then visited + [end] else visited
  }

  /**
   * The k-d path's stops: the tree walk closes back at start; the closing
   * start is dropped unless `roundTrip`; the end is added unless already last.
   */
  function KdRoutePoints(query: (Point, seq<Point>) -> Point, start: Point, rest: seq<Point>, end: Point, roundTrip: bool): (stops: seq<Point>)
    requires IsNearestOracle(query)
    ensures |stops| > 0 && stops[0] == start && stops[|stops| - 1] == end
  {
    var walk := [start] + KdOrder(query, start, rest) + [start];
    var kept := if !roundTrip then walk[..|walk| - 1] else walk;
    if end != kept[|kept| - 1] then kept + [end] else kept
  }

  /** The points of every matrix query the matrix path makes: start, the intermediates, end. */
  function MatrixPoints(start: Point, rest: seq<Point>, end: Point): seq<Point> {
    [start] + rest + [end]
  }

  function RoutePoints(optimizer: RouteOptimizer, start: Point, rest: seq<Point>, end: Point, roundTrip: bool): seq<Point>
    requires Ready(optimizer)
  {
    if optimizer.useKdtree then KdRoutePoints(optimizer.kdNearest, start, rest, end, roundTrip)
    else
      var all := MatrixPoints(start, rest, end);
      var matrix := optimizer.provider.getDistanceMatrix(all, None);
      CoversSubset(matrix, all, [start] + rest);
      MatrixRoutePoints(matrix, start, rest, end)
  }

  /** One provider leg, in the default mode, per consecutive pair of stops. */
  function Legs(provider: RoutingProvider, stops: seq<Point>): (legs: seq<Route>)
    ensures |stops| >= 1 ==> |legs| == |stops| - 1
  {
    if |stops| < 2 then []
    else seq(|stops| - 1, i requires 0 <= i < |stops| - 1 => provider.getRoute(stops[i], stops[i + 1], None))
  }

  /** The calls the stitching loop makes. */
  function LegCalls(stops: seq<Point>): (calls: seq<ProviderCall>)
    ensures |stops| >= 1 ==> |calls| == |stops| - 1
    ensures |stops| >= 1 ==> forall i :: 0 <= i < |calls| ==> calls[i] == RouteCall(stops[i], stops[i + 1], None)
  {
    if |stops| < 2 then []
    else seq(|stops| - 1, i requires 0 <= i < |stops| - 1 => RouteCall(stops[i], stops[i + 1], None))
  }

  /** Python's `coordinates[1:]`, which is empty for an empty list. */
  function AfterFirst(coordinates: seq<Point>): seq<Point> {
    if |coordinates| == 0 then [] else coordinates[1..]
  }

  /**
   * The legs stitched into one Route: segments concatenated, totals added,
   * coordinates concatenated with every later leg's first coordinate dropped.
   */
  /** Appends one leg to a partial route; every leg after the first drops its first coordinate. */
  function Extend(before: Route, leg: Route, first: bool): (r: Route)
    ensures TotalsAreSums(before) && TotalsAreSums(leg) ==> TotalsAreSums(r)
    ensures |before.coordinates| > 0 ==> |r.coordinates| > 0 && r.coordinates[0] == before.coordinates[0]
  {
    SumsOfConcatenation(before.segments, leg.segments);
    Route(
      before.segments + leg.segments,
      before.totalDistance + leg.totalDistance,
      before.totalDuration + leg.totalDuration,
      before.coordinates + (if first then leg.coordinates else AfterFirst(leg.coordinates)))
  }

  function Stitched(legs: seq<Route>): (r: Route)
    ensures |legs| > 0 && |legs[0].coordinates| > 0 ==> |r.coordinates| > 0 && r.coordinates[0] == legs[0].coordinates[0]
    decreases |legs|
  {
    if |legs| == 0 then Route([], 0.0, 0.0, [])
    else Extend(Stitched(legs[..|legs| - 1]), legs[|legs| - 1], |legs| == 1)
  }


  /** What `optimize_route` returns. */
  function Optimized(optimizer: RouteOptimizer, points: seq<Point>, start: Option<Point>, end: Option<Point>, roundTrip: bool): (r: Result<Route, OptimizeError>)
    requires Ready(optimizer)
    ensures r.Failure? <==> |points| == 0
  {
    if |points| == 0 then Failure(NoPointsProvided)
    else
      var s := ResolveStart(points, start);
      var e := ResolveEnd(points, s, end, roundTrip);
      var rest := Intermediates(points, s, e);
      if |rest| == 0 then Success(optimizer.provider.getRoute(s, e, None))
      else Success(Stitched(Legs(optimizer.provider, RoutePoints(optimizer, s, rest, e, roundTrip))))
  }

  /** The provider calls `optimize_route` makes, in order. */
  function OptimizeCalls(optimizer: RouteOptimizer, points: seq<Point>, start: Option<Point>, end: Option<Point>, roundTrip: bool): (calls: seq<ProviderCall>)
    requires Ready(optimizer)
    ensures |calls| == 0 <==> |points| == 0
  {
    if |points| == 0 then []
    else
      var s := ResolveStart(points, start);
      var e := ResolveEnd(points, s, end, roundTrip);
      var rest := Intermediates(points, s, e);
      if |rest| == 0 then [RouteCall(s, e, None)]
      else
        (if optimizer.useKdtree then [] else [DistanceMatrixCall(MatrixPoints(s, rest, e), None)])
        + LegCalls(RoutePoints(optimizer, s, rest, e, roundTrip))
  }

  lemma NearestOrderStep(matrix: map<(Point, Point), real>, current: Point, unvisited: seq<Point>, k: nat)
    requires CoversAll(matrix, [current] + unvisited)
    requires |unvisited| > 0 && k == NearestIndex(matrix, current, unvisited)
    ensures CoversAll(matrix, [unvisited[k]] + RemoveFirst(unvisited, unvisited[k]))
    ensures NearestOrder(matrix, current, unvisited)
      == [unvisited[k]] + NearestOrder(matrix, unvisited[k], RemoveFirst(unvisited, unvisited[k]))
  {
    CoversSubset(matrix, [current] + unvisited, [unvisited[k]] + RemoveFirst(unvisited, unvisited[k]));
  }

  /** The scan over the unvisited points, keeping the first point of strictly smallest distance. */
  method FindNearest(matrix: map<(Point, Point), real>, current: Point, unvisited: seq<Point>) returns (next: Point, ghost k: nat)
    requires |unvisited| > 0 && forall c :: c in unvisited ==> (current, c) in matrix
    ensures next == unvisited[NearestIndex(matrix, current, unvisited)]
    ensures k == NearestIndex(matrix, current, unvisited)
  {
    var found: Option<Point> := None;
    var minDistance := 0.0;
    k := 0;
    var i := 0;
    while i < |unvisited|
      invariant 0 <= i <= |unvisited|
      invariant i == 0 <==> found.None?
      invariant i > 0 ==> k == NearestIndex(matrix, current, unvisited[..i])
      invariant i > 0 ==> found == Some(unvisited[k]) && minDistance == matrix[(current, unvisited[k])]
    {
      var point := unvisited[i];
      var distance := matrix[(current, point)];
      assert unvisited[..i + 1][..i] == unvisited[..i];
      if found.None? || distance < minDistance {
        minDistance := distance;
        found := Some(point);
        k := i;
      }
      i := i + 1;
    }
    assert unvisited[..i] == unvisited;
    next := found.value;
  }

  /** The matrix path's while loop: repeatedly move to the nearest unvisited point. */
  method NearestNeighbourOrder(matrix: map<(Point, Point), real>, start: Point, remaining: seq<Point>) returns (routePoints: seq<Point>)
    requires CoversAll(matrix, [start] + remaining)
    ensures routePoints == [start] + NearestOrder(matrix, start, remaining)
  {
    var current := start;
    routePoints := [start];
    var unvisited := remaining;
    ghost var walk := [start] + NearestOrder(matrix, start, remaining);
    while |unvisited| > 0
      invariant CoversAll(matrix, [current] + unvisited)
      invariant routePoints + NearestOrder(matrix, current, unvisited) == walk
      decreases |unvisited|
    {
      var next, k := FindNearest(matrix, current, unvisited);
      var after := RemoveFirst(unvisited, next);
      NearestOrderStep(matrix, current, unvisited, k);
      ShiftOne(routePoints, next, NearestOrder(matrix, next, after));
      routePoints := routePoints + [next];
      unvisited := after;
      current := next;
    }
  }

  /** `_optimize_with_kdtree`: walk the oracle's answers, then return to start. */
  method OptimizeWithKdtree(query: (Point, seq<Point>) -> Point, points: seq<Point>, start: Point) returns (route: seq<Point>)
    requires IsNearestOracle(query)
    ensures route == [start] + KdOrder(query, start, points) + [start]
  {
    route := [start];
    var remaining := points;
    var current := start;
    ghost var walk := [start] + KdOrder(query, start, points);
    while |remaining| > 0
      invariant route + KdOrder(query, current, remaining) == walk
      decreases |remaining|
    {
      var next := query(current, remaining);
      var after := RemoveFirst(remaining, next);
      KdOrderStep(query, current, remaining);
      ShiftOne(route, next, KdOrder(query, next, after));
      route := route + [next];
      remaining := after;
      current := next;
    }
    route := route + [start];
  }

  /** Stitching one more leg onto the first `i` legs. */
  lemma StitchedStep(legs: seq<Route>, i: nat)
    requires i < |legs|
    ensures Stitched(legs[..i + 1]) == Extend(Stitched(legs[..i]), legs[i], i == 0)
  {
    assert legs[..i + 1][..i] == legs[..i];
  }

  lemma LegAt(provider: RoutingProvider, stops: seq<Point>, i: nat)
    requires i + 1 < |stops|
    ensures Legs(provider, stops)[i] == provider.getRoute(stops[i], stops[i + 1], None)
  {
  }

  lemma LegCallsStep(stops: seq<Point>, i: nat)
    requires i + 1 < |stops|
    ensures LegCalls(stops)[..i + 1] == LegCalls(stops)[..i] + [RouteCall(stops[i], stops[i + 1], None)]
  {
    assert LegCalls(stops)[i] == RouteCall(stops[i], stops[i + 1], None);
  }

  /** The stitching loop: one provider call per consecutive pair of stops. */
  method Stitch(provider: RoutingProvider, stops: seq<Point>) returns (route: Route, ghost calls: seq<ProviderCall>)
    ensures route == Stitched(Legs(provider, stops))
    ensures calls == LegCalls(stops)
  {
    route := Route([], 0.0, 0.0, []);
    calls := [];
    ghost var legs := Legs(provider, stops);
    var n := if |stops| == 0 then 0 else |stops| - 1;
    var i := 0;
    while i < n
      invariant 0 <= i <= n == |legs|
      invariant route == Stitched(legs[..i])
      invariant calls == LegCalls(stops)[..i]
    {
      var leg := provider.getRoute(stops[i], stops[i + 1], None);
      LegAt(provider, stops, i);
      StitchedStep(legs, i);
      LegCallsStep(stops, i);
      calls := calls + [RouteCall(stops[i], stops[i + 1], None)];
      route := Extend(route, leg, i == 0);
      i := i + 1;
    }
    assert legs[..i] == legs;
    assert LegCalls(stops)[..i] == LegCalls(stops);
  }


  /** The stops visited between the resolved endpoints, by either strategy. */
  method OrderStops(optimizer: RouteOptimizer, s: Point, rest: seq<Point>, e: Point, roundTrip: bool)
    returns (routePoints: seq<Point>, ghost matrixCalls: seq<ProviderCall>)
    requires Ready(optimizer)
    ensures routePoints == RoutePoints(optimizer, s, rest, e, roundTrip)
    ensures matrixCalls == if optimizer.useKdtree then [] else [DistanceMatrixCall(MatrixPoints(s, rest, e), None)]
  {
    matrixCalls := [];
    if optimizer.useKdtree {
      routePoints := OptimizeWithKdtree(optimizer.kdNearest, rest, s);
      if !roundTrip {
        routePoints := routePoints[..|routePoints| - 1];
      }
      if e != routePoints[|routePoints| - 1] {
        routePoints := routePoints + [e];
      }
    } else {
      var allPoints := [s] + rest + [e];
      var matrix := optimizer.provider.getDistanceMatrix(allPoints, None);
      matrixCalls := [DistanceMatrixCall(allPoints, None)];
      CoversSubset(matrix, allPoints, [s] + rest);
      routePoints := NearestNeighbourOrder(matrix, s, rest);
      if e != routePoints[|routePoints| - 1] {
        routePoints := routePoints + [e];
      }
    }
  }

  lemma OptimizedWithoutIntermediates(optimizer: RouteOptimizer, points: seq<Point>, start: Option<Point>, end: Option<Point>, roundTrip: bool)
    requires Ready(optimizer) && |points| > 0
    requires |Intermediates(points, ResolveStart(points, start), ResolveEnd(points, ResolveStart(points, start), end, roundTrip))| == 0
    ensures var s := ResolveStart(points, start);
      var e := ResolveEnd(points, s, end, roundTrip);
      Optimized(optimizer, points, start, end, roundTrip) == Success(optimizer.provider.getRoute(s, e, None))
      && OptimizeCalls(optimizer, points, start, end, roundTrip) == [RouteCall(s, e, None)]
  {
  }

  lemma OptimizedWithIntermediates(optimizer: RouteOptimizer, points: seq<Point>, start: Option<Point>, end: Option<Point>, roundTrip: bool)
    requires Ready(optimizer) && |points| > 0
    requires |Intermediates(points, ResolveStart(points, start), ResolveEnd(points, ResolveStart(points, start), end, roundTrip))| > 0
    ensures var s := ResolveStart(points, start);
      var e := ResolveEnd(points, s, end, roundTrip);
      var rest := Intermediates(points, s, e);
      var stops := RoutePoints(optimizer, s, rest, e, roundTrip);
      Optimized(optimizer, points, start, end, roundTrip) == Success(Stitched(Legs(optimizer.provider, stops)))
      && OptimizeCalls(optimizer, points, start, end, roundTrip)
        == (if optimizer.useKdtree then [] else [DistanceMatrixCall(MatrixPoints(s, rest, e), None)]) + LegCalls(stops)
  {
  }

  method OptimizeRoute(optimizer: RouteOptimizer, points: seq<Point>, start: Option<Point>, end: Option<Point>, roundTrip: bool)
    returns (result: Result<Route, OptimizeError>, ghost calls: seq<ProviderCall>)
    requires Ready(optimizer)
    ensures result == Optimized(optimizer, points, start, end, roundTrip)
    ensures calls == OptimizeCalls(optimizer, points, start, end, roundTrip)
    ensures result.Failure? <==> |points| == 0
    ensures |points| == 0 ==> calls == []
  {
    if |points| == 0 {
      return Failure(NoPointsProvided), [];
    }
    var s := if start.None? then points[0] else start.value;
    var e := if end.None? then (if roundTrip then s else points[|points| - 1]) else end.value;
    var rest := Intermediates(points, s, e);
    if |rest| == 0 {
      OptimizedWithoutIntermediates(optimizer, points, start, end, roundTrip);
      return Success(optimizer.provider.getRoute(s, e, None)), [RouteCall(s, e, None)];
    }
    OptimizedWithIntermediates(optimizer, points, start, end, roundTrip);
    var routePoints, matrixCalls := OrderStops(optimizer, s, rest, e, roundTrip);
    var route, legCalls := Stitch(optimizer.provider, routePoints);
    result, calls := Success(route), matrixCalls + legCalls;
  }

  datatype RouteStatistics = RouteStatistics(
    totalDistance: real,
    totalDuration: real,
    numberOfSegments: nat,
    averageSegmentDistance: real,
    averageSegmentDuration: real)

  /** `get_route_statistics`: counts and per-segment averages, 0 when there are no segments. */
  function GetRouteStatistics(route: Route): (stats: RouteStatistics)
    ensures stats.totalDistance == route.totalDistance && stats.totalDuration == route.totalDuration
    ensures stats.numberOfSegments == |route.segments|
    ensures stats.numberOfSegments > 0 ==>
      && stats.averageSegmentDistance * (stats.numberOfSegments as real) == route.totalDistance
      && stats.averageSegmentDuration * (stats.numberOfSegments as real) == route.totalDuration
    ensures stats.numberOfSegments == 0 ==> stats.averageSegmentDistance == 0.0 && stats.averageSegmentDuration == 0.0
  {
    var n := |route.segments|;
    RouteStatistics(
      route.totalDistance,
      route.totalDuration,
      n,
      if n > 0 then route.totalDistance / n as real else 0.0,
      if n > 0 then route.totalDuration / n as real else 0.0)
  }
}
