/**
 * Geospatial value types shared by the provider, the optimizer and the planner
 * (provider/base.py). Coordinates are held as integer micro-degrees: the model
 * never does arithmetic on them, it only compares them for equality. Distances
 * (metres) and durations (seconds) are `real`, so sums are exact.
 */
module Geo {

  datatype Point = Point(lat: int, lon: int)

  datatype TransportMode = Driving | Walking | Cycling

  datatype RouteSegment = RouteSegment(
    distance: real,
    duration: real,
    coordinates: seq<Point>,
    mode: TransportMode)

  datatype Route = Route(
    segments: seq<RouteSegment>,
    totalDistance: real,
    totalDuration: real,
    coordinates: seq<Point>)

  /** Sum of the segments' distances, left to right. */
  function SegmentDistance(segments: seq<RouteSegment>): real
    decreases |segments|
  {
    if |segments| == 0 then 0.0
    else SegmentDistance(segments[..|segments| - 1]) + segments[|segments| - 1].distance
  }

  /** Sum of the segments' durations, left to right. */
  function SegmentDuration(segments: seq<RouteSegment>): real
    decreases |segments|
  {
    if |segments| == 0 then 0.0
    else SegmentDuration(segments[..|segments| - 1]) + segments[|segments| - 1].duration
  }

  /** The documented Route invariant: the totals are the sums over the segments. */
  predicate TotalsAreSums(r: Route) {
    r.totalDistance == SegmentDistance(r.segments) && r.totalDuration == SegmentDuration(r.segments)
  }

  /** A leg from `a` to `b`: its coordinates begin at `a` and end at `b`. */
  predicate Joins(r: Route, a: Point, b: Point) {
    |r.coordinates| > 0 && r.coordinates[0] == a && r.coordinates[|r.coordinates| - 1] == b
  }

  lemma {:induction false} SumsOfConcatenation(s: seq<RouteSegment>, t: seq<RouteSegment>)
    ensures SegmentDistance(s + t) == SegmentDistance(s) + SegmentDistance(t)
    ensures SegmentDuration(s + t) == SegmentDuration(s) + SegmentDuration(t)
    decreases |t|
  {
    if |t| == 0 {
      assert s + t == s;
    } else {
      var t' := t[..|t| - 1];
      assert (s + t)[..|s + t| - 1] == s + t';
      assert t[..|t| - 1] == t';
      SumsOfConcatenation(s, t');
    }
  }
}
