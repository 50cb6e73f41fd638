/**
 * The route planner (core/workflow/route_planner.py): a thin layer that owns
 * a provider and an optimizer over that same provider, and delegates to them.
 */
module RoutePlanning {
  import opened Wrappers
  import opened Geo
  import opened Provider
  import opened RouteOptimization

  datatype RoutePlanner = RoutePlanner(
    provider: RoutingProvider,
    optimizer: RouteOptimizer,
    defaultMode: TransportMode)

  /**
   * `RoutePlanner(provider, use_kdtree, default_mode)`: the optimizer is built
   * over the planner's own provider with the caller's k-d tree flag.
   */
  function NewRoutePlanner(
    provider: RoutingProvider,
    useKdtree: bool,
    kdNearest: (Point, seq<Point>) -> Point,
    defaultMode: TransportMode): (planner: RoutePlanner)
    ensures planner.optimizer.provider == planner.provider == provider
    ensures planner.optimizer.useKdtree == useKdtree
    ensures planner.defaultMode == defaultMode
  {
    RoutePlanner(provider, RouteOptimizer(provider, useKdtree, kdNearest), defaultMode)
  }

  ghost predicate PlannerReady(planner: RoutePlanner) {
    Ready(planner.optimizer) && planner.optimizer.provider == planner.provider
  }

  /** The mode `plan_route` settles on: the given one, else the default. Every mode is truthy. */
  function ChosenMode(planner: RoutePlanner, mode: Option<TransportMode>): (chosen: TransportMode)
    ensures mode.Some? ==> chosen == mode.value
    ensures mode.None? ==> chosen == planner.defaultMode
  {
    mode.GetOr(planner.defaultMode)
  }

  /**
   * `plan_route`: the optimizer's route for the same points, endpoints and
   * round-trip flag. The chosen mode is never passed on, so the result does
   * not depend on `mode`.
   */
  method PlanRoute(
    planner: RoutePlanner,
    points: seq<Point>,
    start: Option<Point>,
    end: Option<Point>,
    roundTrip: bool,
    mode: Option<TransportMode>)
    returns (result: Result<Route, OptimizeError>, ghost calls: seq<ProviderCall>)
    requires PlannerReady(planner)
    ensures result == Optimized(planner.optimizer, points, start, end, roundTrip)
    ensures result.Failure? <==> |points| == 0
    ensures calls == OptimizeCalls(planner.optimizer, points, start, end, roundTrip)
  {
    var chosen := ChosenMode(planner, mode);
    result, calls := OptimizeRoute(planner.optimizer, points, start, end, roundTrip);
  }

  /** Planning the same trip in two different modes gives the same route. */
  method PlanIgnoresMode(
    planner: RoutePlanner,
    points: seq<Point>,
    start: Option<Point>,
    end: Option<Point>,
    roundTrip: bool,
    mode1: Option<TransportMode>,
    mode2: Option<TransportMode>)
    returns (route1: Result<Route, OptimizeError>, route2: Result<Route, OptimizeError>)
    requires PlannerReady(planner)
    ensures route1 == route2
  {
    ghost var calls1, calls2;
    route1, calls1 := PlanRoute(planner, points, start, end, roundTrip, mode1);
    route2, calls2 := PlanRoute(planner, points, start, end, roundTrip, mode2);
  }

  /** `get_distance_matrix`: the provider's matrix for `points`, in its default mode. */
  function GetDistanceMatrix(planner: RoutePlanner, points: seq<Point>): (matrix: map<(Point, Point), real>)
    ensures PlannerReady(planner) ==> IsMatrixOver(matrix, points)
  {
    planner.provider.getDistanceMatrix(points, None)
  }

  /** `get_duration_matrix`: the provider's matrix for `points`, in its default mode. */
  function GetDurationMatrix(planner: RoutePlanner, points: seq<Point>): (matrix: map<(Point, Point), real>)
    ensures PlannerReady(planner) ==> IsMatrixOver(matrix, points)
  {
    planner.provider.getDurationMatrix(points, None)
  }

  datatype PlannerStatistics = PlannerStatistics(totalDistance: real, totalDuration: real, averageSpeed: real)

  /** `get_route_statistics`: the totals, and the average speed, which is 0 unless the duration is positive. */
  function GetRouteStatistics(route: Route): (stats: PlannerStatistics)
    ensures stats.totalDistance == route.totalDistance && stats.totalDuration == route.totalDuration
    ensures route.totalDuration > 0.0 ==> stats.averageSpeed * route.totalDuration == route.totalDistance
    ensures route.totalDuration <= 0.0 ==> stats.averageSpeed == 0.0
  {
    PlannerStatistics(
      route.totalDistance,
      route.totalDuration,
      if route.totalDuration > 0.0 then route.totalDistance / route.totalDuration else 0.0)
  }
}
