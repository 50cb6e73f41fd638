/**
 * What the optimizer's specification functions promise: the visiting order
 * is a permutation of the intermediates chosen greedily, the stops begin at
 * the start and finish at the end, stitching sums the totals exactly and
 * obeys a precise coordinate-count law, and the degenerate inputs take the
 * documented shortcuts.
 */
module RouteOptimizerProperties {
  import opened Wrappers
  import opened Geo
  import opened Provider
  import opened RouteOptimization

  // ---------------------------------------------------------------------------
  // Ordering
  // ---------------------------------------------------------------------------

  /** From `from`, the point `a` is at most as far as `b`. */
  predicate NoFarther(matrix: map<(Point, Point), real>, from: Point, a: Point, b: Point) {
    (from, a) in matrix && (from, b) in matrix && matrix[(from, a)] <= matrix[(from, b)]
  }

  /**
   * Every step of `order` goes to a nearest point among those not yet taken
   * (the rest of `order`): the first from `current`, each later one from the
   * stop before it.
   */
  predicate Greedy(matrix: map<(Point, Point), real>, current: Point, order: seq<Point>) {
    && (forall j :: 0 <= j < |order| ==> NoFarther(matrix, current, order[0], order[j]))
    && (forall i, j {:trigger NoFarther(matrix, order[i - 1], order[i], order[j])} ::
         0 < i <= j < |order| ==> NoFarther(matrix, order[i - 1], order[i], order[j]))
  }

  lemma NearestIsMinimal(matrix: map<(Point, Point), real>, current: Point, unvisited: seq<Point>, c: Point)
    requires |unvisited| > 0 && forall p :: p in unvisited ==> (current, p) in matrix
    requires c in unvisited
    ensures matrix[(current, unvisited[NearestIndex(matrix, current, unvisited)])] <= matrix[(current, c)]
  {
    var m :| 0 <= m < |unvisited| && unvisited[m] == c;
    var k := NearestIndex(matrix, current, unvisited);
    assert IsNearest(matrix, current, unvisited, k);
  }

  /** Prepending a nearest first step to a greedy order from that step keeps it greedy. */
  lemma GreedyCons(matrix: map<(Point, Point), real>, current: Point, next: Point, tail: seq<Point>)
    requires Greedy(matrix, next, tail)
    requires (current, next) in matrix
    requires forall x :: x in tail ==> NoFarther(matrix, current, next, x)
    ensures Greedy(matrix, current, [next] + tail)
  {
    var order := [next] + tail;
    forall j | 0 <= j < |order|
      ensures NoFarther(matrix, current, order[0], order[j])
    {
      if j > 0 {
        assert order[j] == tail[j - 1];
      }
    }
    forall i, j | 0 < i <= j < |order|
      ensures NoFarther(matrix, order[i - 1], order[i], order[j])
    {
      assert order[i] == tail[i - 1] && order[j] == tail[j - 1];
      if i == 1 {
        assert NoFarther(matrix, next, tail[0], tail[j - 1]);
      } else {
        var k := i - 1;
        assert order[i - 1] == tail[k - 1];
        assert NoFarther(matrix, tail[k - 1], tail[k], tail[j - 1]);
      }
    }
  }

  /**
   * The matrix path's order is a permutation of the intermediates in which
   * every step picks a nearest unvisited point.
   */
  lemma {:induction false} NearestOrderIsGreedy(matrix: map<(Point, Point), real>, current: Point, unvisited: seq<Point>)
    requires CoversAll(matrix, [current] + unvisited)
    ensures multiset(NearestOrder(matrix, current, unvisited)) == multiset(unvisited)
    ensures Greedy(matrix, current, NearestOrder(matrix, current, unvisited))
    decreases |unvisited|
  {
    if |unvisited| > 0 {
      var k := NearestIndex(matrix, current, unvisited);
      var next := unvisited[k];
      var rest := RemoveFirst(unvisited, next);
      NearestOrderStep(matrix, current, unvisited, k);
      var tail := NearestOrder(matrix, next, rest);
      NearestOrderIsGreedy(matrix, next, rest);
      forall x | x in tail
        ensures NoFarther(matrix, current, next, x)
      {
        assert x in multiset(tail);
        assert x in rest;
        NearestIsMinimal(matrix, current, unvisited, x);
      }
      GreedyCons(matrix, current, next, tail);
    }
  }

  /**
   * The first step's tie-break: the chosen point occurs in the unvisited
   * list at an index before which every point is strictly farther, because
   * the scan replaces its choice only on a strictly smaller distance.
   */
  lemma NearestOrderHead(matrix: map<(Point, Point), real>, current: Point, unvisited: seq<Point>)
    requires CoversAll(matrix, [current] + unvisited) && |unvisited| > 0
    ensures var order := NearestOrder(matrix, current, unvisited);
      |order| > 0 &&
      (exists k :: 0 <= k < |unvisited| && unvisited[k] == order[0] &&
        forall j :: 0 <= j < k ==> matrix[(current, order[0])] < matrix[(current, unvisited[j])])
  {
    var k := NearestIndex(matrix, current, unvisited);
    var order := NearestOrder(matrix, current, unvisited);
    assert order[0] == unvisited[k];
    assert IsNearest(matrix, current, unvisited, k);
  }

  /** The matrix path visits start, then a permutation of the intermediates, then the end. */
  lemma MatrixStops(matrix: map<(Point, Point), real>, start: Point, rest: seq<Point>, end: Point)
    requires CoversAll(matrix, [start] + rest) && |rest| > 0 && end !in rest
    ensures var order := NearestOrder(matrix, start, rest);
      && MatrixRoutePoints(matrix, start, rest, end) == [start] + order + [end]
      && multiset(order) == multiset(rest)
    ensures EndsAt(MatrixRoutePoints(matrix, start, rest, end), start, end)
  {
    var order := NearestOrder(matrix, start, rest);
    var visited := [start] + order;
    assert visited[|visited| - 1] == order[|order| - 1];
    assert order[|order| - 1] in multiset(order);
    assert order[|order| - 1] in rest;
  }

  /**
   * The k-d path: the tree walk is a permutation of the intermediates; the
   * walk returns to start and keeps that return only on a round trip; the
   * end follows unless it is already the last stop. So a round trip with an
   * explicit end other than start revisits start before the end.
   */
  lemma KdStops(query: (Point, seq<Point>) -> Point, start: Point, rest: seq<Point>, end: Point, roundTrip: bool)
    requires IsNearestOracle(query) && |rest| > 0 && end !in rest
    ensures var order := KdOrder(query, start, rest);
      && multiset(order) == multiset(rest)
      && KdRoutePoints(query, start, rest, end, roundTrip)
        == [start] + order + (if !roundTrip then [end] else if end == start then [start] else [start, end])
    ensures EndsAt(KdRoutePoints(query, start, rest, end, roundTrip), start, end)
  {
    var order := KdOrder(query, start, rest);
    assert order[|order| - 1] in multiset(order);
    ClosedWalkStops(start, order, end, roundTrip);
  }

  /** The k-d stops for a given walk `order` whose last point is not the end. */
  lemma ClosedWalkStops(start: Point, order: seq<Point>, end: Point, roundTrip: bool)
    requires |order| > 0 && order[|order| - 1] != end
    ensures var walk := [start] + order + [start];
      var kept := if !roundTrip then walk[..|walk| - 1] else walk;
      var stops := if end != kept[|kept| - 1] then kept + [end] else kept;
      && stops == [start] + order + (if !roundTrip then [end] else if end == start then [start] else [start, end])
      && EndsAt(stops, start, end)
  {
    var walk := [start] + order + [start];
    if !roundTrip {
      assert walk[..|walk| - 1] == [start] + order;
    }
  }

  /** `stops` has at least two entries, the first `start` and the last `end`. */
  predicate EndsAt(stops: seq<Point>, start: Point, end: Point) {
    |stops| >= 2 && stops[0] == start && stops[|stops| - 1] == end
  }

  /** The stops of either path begin at the start and finish at the end. */
  lemma StopsEndpoints(optimizer: RouteOptimizer, start: Point, rest: seq<Point>, end: Point, roundTrip: bool)
    requires Ready(optimizer) && |rest| > 0 && end !in rest
    ensures EndsAt(RoutePoints(optimizer, start, rest, end, roundTrip), start, end)
  {
    if optimizer.useKdtree {
      KdStops(optimizer.kdNearest, start, rest, end, roundTrip);
    } else {
      MatrixPathStops(optimizer, start, rest, end, roundTrip);
    }
  }

  /** On the matrix path the stops are the start, one visit per intermediate, and the end. */
  lemma MatrixPathStops(optimizer: RouteOptimizer, start: Point, rest: seq<Point>, end: Point, roundTrip: bool)
    requires Ready(optimizer) && !optimizer.useKdtree && |rest| > 0 && end !in rest
    ensures var stops := RoutePoints(optimizer, start, rest, end, roundTrip);
      |stops| == |rest| + 2 && EndsAt(stops, start, end)
  {
    var all := MatrixPoints(start, rest, end);
    var matrix := optimizer.provider.getDistanceMatrix(all, None);
    assert all == ([start] + rest) + [end];
    assert CoversAll(matrix, [start] + rest) by {
      CoversSubset(matrix, all, [start] + rest);
    }
    MatrixStops(matrix, start, rest, end);
  }

  // ---------------------------------------------------------------------------
  // Stitching
  // ---------------------------------------------------------------------------

  /** When every leg's totals are the sums over its segments, so are the stitched route's. */
  lemma {:induction false} StitchedTotals(legs: seq<Route>)
    requires forall i :: 0 <= i < |legs| ==> TotalsAreSums(legs[i])
    ensures TotalsAreSums(Stitched(legs))
    decreases |legs|
  {
    if |legs| > 0 {
      var before := legs[..|legs| - 1];
      StitchedTotals(before);
      SumsOfConcatenation(Stitched(before).segments, legs[|legs| - 1].segments);
    }
  }

  /** One-segment legs: the route has one segment per leg, in leg order. */
  lemma {:induction false} StitchedSegments(legs: seq<Route>)
    requires forall i :: 0 <= i < |legs| ==> |legs[i].segments| == 1
    ensures |Stitched(legs).segments| == |legs|
    ensures forall i :: 0 <= i < |legs| ==> Stitched(legs).segments[i] == legs[i].segments[0]
    decreases |legs|
  {
    if |legs| > 0 {
      var before := legs[..|legs| - 1];
      StitchedSegments(before);
    }
  }

  /**
   * Two-point legs: the first leg contributes both of its coordinates and
   * every later leg its second one, so the route has one coordinate more
   * than it has legs.
   */
  lemma {:induction false} StitchedCoordinates(legs: seq<Route>)
    requires forall i :: 0 <= i < |legs| ==> |legs[i].coordinates| == 2
    ensures |legs| > 0 ==> |Stitched(legs).coordinates| == |legs| + 1 && Stitched(legs).coordinates[0] == legs[0].coordinates[0]
    ensures forall i :: 0 <= i < |legs| ==> Stitched(legs).coordinates[i + 1] == legs[i].coordinates[1]
    decreases |legs|
  {
    if |legs| > 0 {
      var before := legs[..|legs| - 1];
      StitchedCoordinates(before);
      if |legs| == 1 {
        assert before == [];
      } else {
        assert AfterFirst(legs[|legs| - 1].coordinates) == [legs[|legs| - 1].coordinates[1]];
      }
    }
  }

  /** Legs chained through `stops` stitch into a route from the first stop to the last. */
  lemma {:induction false} StitchedJoins(legs: seq<Route>, stops: seq<Point>)
    requires |legs| > 0 && |stops| == |legs| + 1
    requires forall i :: 0 <= i < |legs| ==> Joins(legs[i], stops[i], stops[i + 1])
    ensures Joins(Stitched(legs), stops[0], stops[|legs|])
    decreases |legs|
  {
    var n := |legs|;
    var leg := legs[n - 1];
    assert Joins(leg, stops[n - 1], stops[n]);
    if n == 1 {
      assert legs[..0] == [];
    } else {
      var before := legs[..n - 1];
      StitchedJoins(before, stops[..n]);
      var c := Stitched(before).coordinates;
      var tail := AfterFirst(leg.coordinates);
      assert Stitched(legs).coordinates == c + tail;
      if |leg.coordinates| >= 2 {
        assert tail[|tail| - 1] == stops[n];
      }
    }
  }

  /** The lists one after another, front to back. */
  function Flatten<T>(xss: seq<seq<T>>): seq<T>
    decreases |xss|
  {
    if |xss| == 0 then [] else xss[0] + Flatten(xss[1..])
  }

  /** The legs' total distances added up, front to back. */
  function LegsDistance(legs: seq<Route>): real
    decreases |legs|
  {
    if |legs| == 0 then 0.0 else legs[0].totalDistance + LegsDistance(legs[1..])
  }

  /** The legs' total durations added up, front to back. */
  function LegsDuration(legs: seq<Route>): real
    decreases |legs|
  {
    if |legs| == 0 then 0.0 else legs[0].totalDuration + LegsDuration(legs[1..])
  }

  /** A list put at the back of the lists ends up at the back of their concatenation. */
  lemma {:induction false} FlattenSnoc<T>(xss: seq<seq<T>>, xs: seq<T>)
    ensures Flatten(xss + [xs]) == Flatten(xss) + xs
    decreases |xss|
  {
    if |xss| == 0 {
      assert xss + [xs] == [xs];
      assert [xs][1..] == [];
    } else {
      assert (xss + [xs])[1..] == xss[1..] + [xs];
      FlattenSnoc(xss[1..], xs);
    }
  }

  /** A leg put at the back of the legs adds its totals at the back of the sums. */
  lemma {:induction false} LegSumsSnoc(legs: seq<Route>, leg: Route)
    ensures LegsDistance(legs + [leg]) == LegsDistance(legs) + leg.totalDistance
    ensures LegsDuration(legs + [leg]) == LegsDuration(legs) + leg.totalDuration
    decreases |legs|
  {
    if |legs| == 0 {
      assert legs + [leg] == [leg];
      assert [leg][1..] == [];
    } else {
      assert (legs + [leg])[1..] == legs[1..] + [leg];
      LegSumsSnoc(legs[1..], leg);
    }
  }

  /** Stitching, for any legs: the segments are all legs' segments, in leg order. */
  lemma {:induction false} StitchedSegmentsLaw(legs: seq<Route>)
    ensures Stitched(legs).segments == Flatten(seq(|legs|, i requires 0 <= i < |legs| => legs[i].segments))
    decreases |legs|
  {
    if |legs| > 0 {
      var before := legs[..|legs| - 1];
      var last := legs[|legs| - 1];
      StitchedSegmentsLaw(before);
      var segments := seq(|before|, i requires 0 <= i < |before| => before[i].segments);
      assert seq(|legs|, i requires 0 <= i < |legs| => legs[i].segments) == segments + [last.segments];
      FlattenSnoc(segments, last.segments);
    }
  }

  /** Stitching, for any legs: the totals are the sums of the legs' totals. */
  lemma {:induction false} StitchedTotalsLaw(legs: seq<Route>)
    ensures Stitched(legs).totalDistance == LegsDistance(legs)
    ensures Stitched(legs).totalDuration == LegsDuration(legs)
    decreases |legs|
  {
    if |legs| > 0 {
      var before := legs[..|legs| - 1];
      StitchedTotalsLaw(before);
      assert legs == before + [legs[|legs| - 1]];
      LegSumsSnoc(before, legs[|legs| - 1]);
    }
  }

  /**
   * Stitching, for any non-empty legs: the coordinates are the first leg's,
   * followed by every later leg's without its first point.
   */
  lemma {:induction false} StitchedCoordinatesLaw(legs: seq<Route>)
    ensures |legs| == 0 ==> Stitched(legs).coordinates == []
    ensures |legs| > 0 ==>
      Stitched(legs).coordinates == legs[0].coordinates + Flatten(seq(|legs| - 1, i requires 0 <= i < |legs| - 1 => AfterFirst(legs[i + 1].coordinates)))
    decreases |legs|
  {
    if |legs| > 1 {
      var before := legs[..|legs| - 1];
      var last := legs[|legs| - 1];
      StitchedCoordinatesLaw(before);
      var tails := seq(|before| - 1, i requires 0 <= i < |before| - 1 => AfterFirst(before[i + 1].coordinates));
      assert seq(|legs| - 1, i requires 0 <= i < |legs| - 1 => AfterFirst(legs[i + 1].coordinates)) == tails + [AfterFirst(last.coordinates)];
      FlattenSnoc(tails, AfterFirst(last.coordinates));
    } else if |legs| == 1 {
      assert legs[..0] == [];
    }
  }

  lemma LegsChain(provider: RoutingProvider, stops: seq<Point>)
    requires Conforms(provider) && |stops| >= 2
    ensures forall i :: 0 <= i < |stops| - 1 ==> Joins(Legs(provider, stops)[i], stops[i], stops[i + 1])
    ensures forall i :: 0 <= i < |stops| - 1 ==> TotalsAreSums(Legs(provider, stops)[i])
  {
    forall i | 0 <= i < |stops| - 1
      ensures Joins(Legs(provider, stops)[i], stops[i], stops[i + 1])
      ensures TotalsAreSums(Legs(provider, stops)[i])
    {
      LegAt(provider, stops, i);
    }
  }

  // ---------------------------------------------------------------------------
  // optimize_route
  // ---------------------------------------------------------------------------

  /**
   * Over a conforming provider the optimized route starts at the given start
   * (else the first point), finishes at the given end (else the start on a
   * round trip, else the last point), and its totals are its segment sums.
   */
  lemma OptimizedEndpoints(optimizer: RouteOptimizer, points: seq<Point>, start: Option<Point>, end: Option<Point>, roundTrip: bool)
    requires Ready(optimizer) && |points| > 0
    ensures var r := Optimized(optimizer, points, start, end, roundTrip);
      var first := if start.Some? then start.value else points[0];
      var last := if end.Some? then end.value else if roundTrip then first else points[|points| - 1];
      r.Success? && Joins(r.value, first, last) && TotalsAreSums(r.value)
  {
    var s := ResolveStart(points, start);
    var e := ResolveEnd(points, s, end, roundTrip);
    var rest := Intermediates(points, s, e);
    if |rest| > 0 {
      OptimizedWithIntermediates(optimizer, points, start, end, roundTrip);
      StopsEndpoints(optimizer, s, rest, e, roundTrip);
      LegsEndpoints(optimizer.provider, RoutePoints(optimizer, s, rest, e, roundTrip), s, e);
    }
  }

  /** Over a conforming provider, the legs through `stops` stitch into a route from its first stop to its last. */
  lemma LegsEndpoints(provider: RoutingProvider, stops: seq<Point>, first: Point, last: Point)
    requires Conforms(provider) && EndsAt(stops, first, last)
    ensures var r := Stitched(Legs(provider, stops));
      Joins(r, first, last) && TotalsAreSums(r)
  {
    var legs := Legs(provider, stops);
    LegsChain(provider, stops);
    StitchedJoins(legs, stops);
    StitchedTotals(legs);
  }

  /** A round trip with no explicit end finishes where it started. */
  lemma RoundTripCloses(optimizer: RouteOptimizer, points: seq<Point>, start: Option<Point>)
    requires Ready(optimizer) && |points| > 0
    ensures var r := Optimized(optimizer, points, start, None, true);
      r.Success? && |r.value.coordinates| > 0 && r.value.coordinates[0] == r.value.coordinates[|r.value.coordinates| - 1]
  {
    OptimizedEndpoints(optimizer, points, start, None, true);
  }

  /** A lone point, with no explicit endpoints, is one provider leg from it to itself. */
  lemma SinglePoint(optimizer: RouteOptimizer, p: Point, roundTrip: bool)
    requires Ready(optimizer)
    ensures Optimized(optimizer, [p], None, None, roundTrip) == Success(optimizer.provider.getRoute(p, p, None))
    ensures OptimizeCalls(optimizer, [p], None, None, roundTrip) == [RouteCall(p, p, None)]
  {
    assert Intermediates([p], p, p) == Intermediates([], p, p) + [];
    OptimizedWithoutIntermediates(optimizer, [p], None, None, roundTrip);
  }

  /** Every provider call the optimizer makes passes no mode, so each uses the provider's default. */
  lemma CallsUseDefaultMode(optimizer: RouteOptimizer, points: seq<Point>, start: Option<Point>, end: Option<Point>, roundTrip: bool)
    requires Ready(optimizer)
    ensures forall c :: c in OptimizeCalls(optimizer, points, start, end, roundTrip) ==> c.mode.None?
  {
    if |points| > 0 {
      var s := ResolveStart(points, start);
      var e := ResolveEnd(points, s, end, roundTrip);
      var rest := Intermediates(points, s, e);
      if |rest| > 0 {
        StitchedCallModes(optimizer.useKdtree, MatrixPoints(s, rest, e), RoutePoints(optimizer, s, rest, e, roundTrip));
      } else {
        OptimizedWithoutIntermediates(optimizer, points, start, end, roundTrip);
      }
    }
  }

  /** The matrix call, when made, and every leg call pass no mode. */
  lemma StitchedCallModes(useKdtree: bool, all: seq<Point>, stops: seq<Point>)
    ensures var calls := (if useKdtree then [] else [DistanceMatrixCall(all, None)]) + LegCalls(stops);
      forall c :: c in calls ==> c.mode.None?
  {
    var matrixCall := if useKdtree then [] else [DistanceMatrixCall(all, None)];
    forall c | c in matrixCall + LegCalls(stops)
      ensures c.mode.None?
    {
      if c !in matrixCall {
        var i :| 0 <= i < |LegCalls(stops)| && LegCalls(stops)[i] == c;
      }
    }
  }

  /**
   * With intermediates, the optimizer makes exactly one leg call per
   * consecutive pair of stops, after one matrix call on the matrix path.
   */
  lemma CallsPerStop(optimizer: RouteOptimizer, points: seq<Point>, start: Option<Point>, end: Option<Point>, roundTrip: bool)
    requires Ready(optimizer) && |points| > 0
    ensures var s := ResolveStart(points, start);
      var e := ResolveEnd(points, s, end, roundTrip);
      var rest := Intermediates(points, s, e);
      |rest| > 0 ==>
        |OptimizeCalls(optimizer, points, start, end, roundTrip)|
          == (if optimizer.useKdtree then 0 else 1) + |RoutePoints(optimizer, s, rest, e, roundTrip)| - 1
  {
    var s := ResolveStart(points, start);
    var e := ResolveEnd(points, s, end, roundTrip);
    var rest := Intermediates(points, s, e);
    if |rest| > 0 {
      OptimizedWithIntermediates(optimizer, points, start, end, roundTrip);
      var stops := RoutePoints(optimizer, s, rest, e, roundTrip);
      StopsEndpoints(optimizer, s, rest, e, roundTrip);
      LegCallModes(stops);
    }
  }

  lemma LegCallModes(stops: seq<Point>)
    requires |stops| >= 1
    ensures |LegCalls(stops)| == |stops| - 1
    ensures forall c :: c in LegCalls(stops) ==> c.RouteCall? && c.mode.None?
  {
  }

  /** Over the synthetic provider, legs through `stops` stitch into one segment per leg and one coordinate per stop. */
  lemma MockLegsShape(provider: RoutingProvider, distance: (Point, Point) -> real, stops: seq<Point>)
    requires |stops| >= 2
    requires forall a, b, mode :: provider.getRoute(a, b, mode) == MockRoute(distance, a, b, mode)
    ensures var r := Stitched(Legs(provider, stops));
      |r.segments| == |stops| - 1 && |r.coordinates| == |stops|
  {
    var legs := Legs(provider, stops);
    forall i | 0 <= i < |legs|
      ensures |legs[i].segments| == 1 && |legs[i].coordinates| == 2
    {
      LegAt(provider, stops, i);
    }
    StitchedSegments(legs);
    StitchedCoordinates(legs);
  }

  /**
   * Over the synthetic provider, the matrix path with intermediates gives
   * one segment per leg and one coordinate per stop: `|rest| + 1` segments
   * and `|rest| + 2` coordinates.
   */
  lemma MockMatrixShape(optimizer: RouteOptimizer, distance: (Point, Point) -> real, points: seq<Point>, start: Option<Point>, end: Option<Point>, roundTrip: bool)
    requires Ready(optimizer) && !optimizer.useKdtree && |points| > 0
    requires forall a, b, mode :: optimizer.provider.getRoute(a, b, mode) == MockRoute(distance, a, b, mode)
    ensures var s := ResolveStart(points, start);
      var e := ResolveEnd(points, s, end, roundTrip);
      var rest := Intermediates(points, s, e);
      var r := Optimized(optimizer, points, start, end, roundTrip);
      |rest| > 0 ==> r.Success? && |r.value.segments| == |rest| + 1 && |r.value.coordinates| == |rest| + 2
  {
    var s := ResolveStart(points, start);
    var e := ResolveEnd(points, s, end, roundTrip);
    var rest := Intermediates(points, s, e);
    if |rest| > 0 {
      OptimizedWithIntermediates(optimizer, points, start, end, roundTrip);
      var stops := RoutePoints(optimizer, s, rest, e, roundTrip);
      MatrixPathStops(optimizer, s, rest, e, roundTrip);
      MockLegsShape(optimizer.provider, distance, stops);
    }
  }
}
