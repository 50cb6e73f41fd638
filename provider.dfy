/**
 * The routing-provider interface (provider/base.py) and the deterministic
 * synthetic provider the tests use (provider/mock_provider.py).
 *
 * The interface is a record of its four operations. `Conforms` states what
 * every provider promises: a leg's coordinates begin at its start and end at
 * its end, its totals are the sums over its segments, and each matrix holds an
 * entry for every ordered pair of the requested points, zero on the diagonal.
 */
module Provider {
  import opened Wrappers
  import opened Geo

  datatype RoutingProvider = RoutingProvider(
    getRoute: (Point, Point, Option<TransportMode>) -> Route,
    getDistanceMatrix: (seq<Point>, Option<TransportMode>) -> map<(Point, Point), real>,
    getDurationMatrix: (seq<Point>, Option<TransportMode>) -> map<(Point, Point), real>,
    isValidPoint: (Point, Option<TransportMode>) -> bool)

  /** `m` holds an entry for every ordered pair of `points`, with 0 for a point and itself. */
  predicate IsMatrixOver(m: map<(Point, Point), real>, points: seq<Point>) {
    && (forall a, b :: a in points && b in points ==> (a, b) in m)
    && (forall p :: p in points ==> m[(p, p)] == 0.0)
  }

  ghost predicate Conforms(provider: RoutingProvider) {
    && (forall a, b, mode :: Joins(provider.getRoute(a, b, mode), a, b))
    && (forall a, b, mode :: TotalsAreSums(provider.getRoute(a, b, mode)))
    && (forall points, mode :: IsMatrixOver(provider.getDistanceMatrix(points, mode), points))
    && (forall points, mode :: IsMatrixOver(provider.getDurationMatrix(points, mode), points))
  }

  /**
   * What the synthetic provider's flat-earth distance (Euclidean degree
   * distance times 111000) guarantees: zero from a point to itself,
   * symmetric, never negative.
   */
  ghost predicate IsPlanarDistance(distance: (Point, Point) -> real) {
    && (forall p :: distance(p, p) == 0.0)
    && (forall a, b :: distance(a, b) == distance(b, a))
    && (forall a, b :: distance(a, b) >= 0.0)
  }

  /** Metres per second for a mode; a missing mode means driving. */
  function Speed(mode: Option<TransportMode>): (speed: real)
    ensures speed > 0.0
    ensures mode == None ==> speed == 13.89
  {
    var m := mode.GetOr(Driving);
    if m == Driving then 13.89
    else if m == Walking then 1.4
    else 5.0
  }

  /** The matrix the nested loops of the synthetic provider build: 0 on the diagonal, `offDiagonal` elsewhere. */
  function MatrixOf(points: seq<Point>, offDiagonal: (Point, Point) -> real): (m: map<(Point, Point), real>)
    ensures forall a, b :: (a, b) in m <==> a in points && b in points
  {
    map a, b | a in points && b in points :: (a, b) := if a == b then 0.0 else offDiagonal(a, b)
  }

  /** The synthetic distance matrix. */
  function DistanceMatrixOf(points: seq<Point>, distance: (Point, Point) -> real): map<(Point, Point), real> {
    MatrixOf(points, distance)
  }

  /** The synthetic duration matrix: each distance divided by the mode's speed. */
  function DurationMatrixOf(points: seq<Point>, distance: (Point, Point) -> real, mode: Option<TransportMode>): map<(Point, Point), real> {
    MatrixOf(points, (a, b) => distance(a, b) / Speed(mode))
  }

  /** The synthetic leg from `start` to `end`: one straight segment. */
  function MockRoute(distance: (Point, Point) -> real, start: Point, end: Point, mode: Option<TransportMode>): (r: Route)
    ensures |r.segments| == 1 && r.coordinates == [start, end]
    ensures r.segments[0].coordinates == r.coordinates && r.segments[0].mode == mode.GetOr(Driving)
    ensures r.totalDistance == r.segments[0].distance && r.totalDuration == r.segments[0].duration
    ensures r.totalDuration * Speed(mode) == r.totalDistance
    ensures Joins(r, start, end) && TotalsAreSums(r)
  {
    var d := distance(start, end);
    var m := mode.GetOr(Driving);
    var duration := d / Speed(mode);
    var segment := RouteSegment(d, duration, [start, end], m);
    assert [segment][..0] == [];
    assert SegmentDistance([segment]) == SegmentDistance([]) + d;
    assert SegmentDuration([segment]) == SegmentDuration([]) + duration;
    Route([segment], d, duration, [start, end])
  }

  class MockProvider {
    /** Stands for the source's Euclidean degree distance times 111000. */
    const distance: (Point, Point) -> real
    var validPoints: set<Point>
    /** Every point passed to AddValidPoint, in call order. */
    ghost var added: seq<Point>

    ghost predicate Valid()
      reads this
    {
      IsPlanarDistance(distance) && validPoints == set p | p in added
    }

    constructor (distance: (Point, Point) -> real)
      requires IsPlanarDistance(distance)
      ensures Valid() && this.distance == distance
      ensures added == [] && validPoints == {}
    {
      this.distance := distance;
      validPoints := {};
      added := [];
    }

    method AddValidPoint(point: Point)
      requires Valid()
      modifies this
      ensures Valid() && added == old(added) + [point]
      ensures validPoints == old(validPoints) + {point}
    {
      validPoints := validPoints + {point};
      added := added + [point];
    }

    /** A point is valid exactly when it was passed to AddValidPoint earlier. */
    function IsValidPoint(point: Point, mode: Option<TransportMode>): (valid: bool)
      reads this
      requires Valid()
      ensures valid <==> exists i :: 0 <= i < |added| && added[i] == point
    {
      point in validPoints
    }

    method GetDistanceMatrix(points: seq<Point>, mode: Option<TransportMode>) returns (matrix: map<(Point, Point), real>)
      requires Valid()
      ensures matrix == DistanceMatrixOf(points, distance)
    {
      matrix := FillMatrix(points, distance);
    }

    method GetDurationMatrix(points: seq<Point>, mode: Option<TransportMode>) returns (matrix: map<(Point, Point), real>)
      requires Valid()
      ensures matrix == DurationMatrixOf(points, distance, mode)
    {
      var speed := Speed(mode);
      matrix := FillMatrix(points, (a, b) => distance(a, b) / speed);
    }

    /** The synthetic provider seen through the RoutingProvider interface, at its current state. */
    function AsRoutingProvider(): RoutingProvider
      reads this
    {
      var valid := validPoints;
      var d := distance;
      RoutingProvider(
        (a, b, mode) => MockRoute(d, a, b, mode),
        (points, mode) => DistanceMatrixOf(points, d),
        (points, mode) => DurationMatrixOf(points, d, mode),
        (p, mode) => p in valid)
    }
  }

  /**
   * The nested loops shared by both matrix methods: row by row, the entry for
   * (points[i], points[j]) becomes 0 when i == j and `offDiagonal` otherwise;
   * a later write for a repeated pair overwrites an earlier one.
   */
  method FillMatrix(points: seq<Point>, offDiagonal: (Point, Point) -> real) returns (matrix: map<(Point, Point), real>)
    requires forall p :: offDiagonal(p, p) == 0.0
    ensures matrix == MatrixOf(points, offDiagonal)
  {
    matrix := map[];
    var i := 0;
    while i < |points|
      invariant 0 <= i <= |points|
      invariant forall a, b :: (a, b) in matrix <==> a in points[..i] && b in points
      invariant EntriesAgree(matrix, offDiagonal)
    {
      var j := 0;
      while j < |points|
        invariant 0 <= j <= |points|
        invariant forall a, b :: (a, b) in matrix <==> (a in points[..i] && b in points) || (a == points[i] && b in points[..j])
        invariant EntriesAgree(matrix, offDiagonal)
      {
        if i == j {
          matrix := matrix[(points[i], points[j]) := 0.0];
        } else {
          matrix := matrix[(points[i], points[j]) := offDiagonal(points[i], points[j])];
        }
        assert points[..j + 1] == points[..j] + [points[j]];
        j := j + 1;
      }
      assert points[..j] == points;
      assert points[..i + 1] == points[..i] + [points[i]];
      i := i + 1;
    }
    assert points[..i] == points;
    FilledMatrix(points, offDiagonal, matrix);
  }

  /** Every entry of `m` is 0 on the diagonal and `offDiagonal` elsewhere. */
  ghost predicate EntriesAgree(m: map<(Point, Point), real>, offDiagonal: (Point, Point) -> real) {
    forall a, b :: (a, b) in m ==> m[(a, b)] == (if a == b then 0.0 else offDiagonal(a, b))
  }

  /** A map with the keys of MatrixOf whose entries agree with it is MatrixOf. */
  lemma FilledMatrix(points: seq<Point>, offDiagonal: (Point, Point) -> real, m: map<(Point, Point), real>)
    requires forall a, b :: (a, b) in m <==> a in points && b in points
    requires EntriesAgree(m, offDiagonal)
    ensures m == MatrixOf(points, offDiagonal)
  {
    var spec := MatrixOf(points, offDiagonal);
    assert m.Keys == spec.Keys by {
      forall k | k in m ensures k in spec { var (a, b) := k; }
      forall k | k in spec ensures k in m { var (a, b) := k; }
    }
    forall k | k in m ensures m[k] == spec[k] { var (a, b) := k; }
  }
}

/** Properties of the synthetic provider (provider/mock_provider.py). */
module MockProviderProperties {
  import opened Wrappers
  import opened Geo
  import opened Provider

  predicate Distinct(points: seq<Point>) {
    forall i, j :: 0 <= i < j < |points| ==> points[i] != points[j]
  }

  /** The synthetic provider meets the interface contract. */
  lemma MockConforms(provider: MockProvider)
    requires IsPlanarDistance(provider.distance)
    ensures Conforms(provider.AsRoutingProvider())
  {
    var p := provider.AsRoutingProvider();
    forall points, mode ensures IsMatrixOver(p.getDurationMatrix(points, mode), points) {
      assert p.getDurationMatrix(points, mode) == DurationMatrixOf(points, provider.distance, mode);
    }
  }

  /** A leg from a point to itself costs nothing. */
  lemma RouteToSelfIsFree(distance: (Point, Point) -> real, p: Point, mode: Option<TransportMode>)
    requires IsPlanarDistance(distance)
    ensures MockRoute(distance, p, p, mode).totalDistance == 0.0
    ensures MockRoute(distance, p, p, mode).totalDuration == 0.0
  {
    assert distance(p, p) == 0.0;
  }

  /** Entry (a, b) of the distance matrix equals entry (b, a). */
  lemma DistanceMatrixSymmetric(points: seq<Point>, distance: (Point, Point) -> real, a: Point, b: Point)
    requires IsPlanarDistance(distance)
    requires a in points && b in points
    ensures DistanceMatrixOf(points, distance)[(a, b)] == DistanceMatrixOf(points, distance)[(b, a)]
  {
    assert distance(a, b) == distance(b, a);
  }

  /**
   * The duration matrix is zero on the diagonal, symmetric, and off the
   * diagonal it is the distance matrix's entry divided by the mode's speed.
   */
  lemma DurationMatrixEntries(points: seq<Point>, distance: (Point, Point) -> real, mode: Option<TransportMode>, a: Point, b: Point)
    requires IsPlanarDistance(distance)
    requires a in points && b in points
    ensures DurationMatrixOf(points, distance, mode)[(a, a)] == 0.0
    ensures DurationMatrixOf(points, distance, mode)[(a, b)] == DurationMatrixOf(points, distance, mode)[(b, a)]
    ensures DurationMatrixOf(points, distance, mode)[(a, b)] == DistanceMatrixOf(points, distance)[(a, b)] / Speed(mode)
  {
    var speed := Speed(mode);
    var durations := DurationMatrixOf(points, distance, mode);
    assert durations[(a, a)] == 0.0;
    assert durations[(a, b)] == if a == b then 0.0 else distance(a, b) / speed;
    assert durations[(b, a)] == if b == a then 0.0 else distance(b, a) / speed;
    assert distance(a, b) == distance(b, a);
  }

  ghost function Pairs(points: seq<Point>): set<(Point, Point)> {
    set a, b | a in points && b in points :: (a, b)
  }

  lemma {:induction false} RowCount(x: Point, s: seq<Point>)
    requires Distinct(s)
    ensures |set b | b in s :: (x, b)| == |s|
    decreases |s|
  {
    if |s| > 0 {
      var t := s[..|s| - 1];
      var y := s[|s| - 1];
      RowCount(x, t);
      var before := set b | b in t :: (x, b);
      assert (set b | b in s :: (x, b)) == before + {(x, y)};
      assert (x, y) !in before;
    }
  }

  lemma {:induction false} ColumnCount(x: Point, s: seq<Point>)
    requires Distinct(s)
    ensures |set a | a in s :: (a, x)| == |s|
    decreases |s|
  {
    if |s| > 0 {
      var t := s[..|s| - 1];
      var y := s[|s| - 1];
      ColumnCount(x, t);
      var before := set a | a in t :: (a, x);
      assert (set a | a in s :: (a, x)) == before + {(y, x)};
      assert (y, x) !in before;
    }
  }

  lemma DisjointUnionSize<T>(a: set<T>, b: set<T>)
    requires a !! b
    ensures |a + b| == |a| + |b|
  {
    assert a * b == {};
  }

  /** Adding a last point `x` adds its row (x, _) and the column (_, x) of the earlier points. */
  lemma PairsOfSnoc(t: seq<Point>, x: Point)
    ensures Pairs(t + [x]) == Pairs(t) + (set b | b in t + [x] :: (x, b)) + (set a | a in t :: (a, x))
  {
    var s := t + [x];
    forall k | k in Pairs(s) ensures k in Pairs(t) + (set b | b in s :: (x, b)) + (set a | a in t :: (a, x)) {
      var (a, b) := k;
      assert a in s && b in s;
      if a != x && b != x {
        assert a in t && b in t;
      } else if a != x {
        assert a in t;
      }
    }
  }

  lemma SquareOfSuccessor(n: nat)
    ensures (n + 1) * (n + 1) == n * n + (n + 1) + n
  {
  }

  /** The row of a new last point `x` and the column of the earlier points do not overlap the earlier pairs or each other. */
  lemma SnocPartsDisjoint(t: seq<Point>, x: Point)
    requires x !in t
    ensures Pairs(t) !! (set b | b in t + [x] :: (x, b))
    ensures Pairs(t) !! (set a | a in t :: (a, x))
    ensures (set b | b in t + [x] :: (x, b)) !! (set a | a in t :: (a, x))
  {
    var row := set b | b in t + [x] :: (x, b);
    var column := set a | a in t :: (a, x);
    forall k | k in row ensures k !in Pairs(t) { var (a, b) := k; assert a == x; }
    forall k | k in column ensures k !in Pairs(t) { var (a, b) := k; assert b == x; }
    forall k | k in column ensures k !in row { var (a, b) := k; assert a in t; }
  }

  /** Adding a new last point adds its row and the earlier points' column: 2 * |t| + 1 pairs. */
  lemma PairsSnocSize(t: seq<Point>, x: Point)
    requires Distinct(t + [x])
    ensures |Pairs(t + [x])| == |Pairs(t)| + 2 * |t| + 1
  {
    var points := t + [x];
    DistinctSnoc(t, x);
    var row := set b | b in points :: (x, b);
    var column := set a | a in t :: (a, x);
    RowCount(x, points);
    ColumnCount(x, t);
    PairsOfSnoc(t, x);
    SnocPartsDisjoint(t, x);
    DisjointUnionSize(Pairs(t), row);
    DisjointUnionSize(Pairs(t) + row, column);
  }

  /** A distinct sequence with a last point: the rest is distinct and does not hold that point. */
  lemma DistinctSnoc(t: seq<Point>, x: Point)
    requires Distinct(t + [x])
    ensures Distinct(t) && x !in t
  {
    var points := t + [x];
    forall i | 0 <= i < |t| ensures t[i] != x {
      assert t[i] == points[i] && x == points[|t|];
    }
    forall i, j | 0 <= i < j < |t| ensures t[i] != t[j] {
      assert t[i] == points[i] && t[j] == points[j];
    }
  }

  lemma {:induction false} PairsCount(points: seq<Point>)
    requires Distinct(points)
    ensures |Pairs(points)| == |points| * |points|
    decreases |points|
  {
    if |points| == 0 {
      assert Pairs(points) == {};
    } else {
      var t := points[..|points| - 1];
      assert points == t + [points[|points| - 1]];
      PairsSnocSize(t, points[|points| - 1]);
      PairsCount(t);
      SquareOfSuccessor(|t|);
    }
  }

  /** For distinct points, the distance matrix has exactly n * n entries. */
  lemma DistanceMatrixSize(points: seq<Point>, distance: (Point, Point) -> real)
    requires Distinct(points)
    ensures |DistanceMatrixOf(points, distance)| == |points| * |points|
  {
    var m := DistanceMatrixOf(points, distance);
    assert m.Keys == Pairs(points) by {
      forall k | k in Pairs(points) ensures k in m { var (a, b) := k; }
    }
    PairsCount(points);
  }

  /** A fresh provider accepts nothing; after adding `p` it accepts `p` and still rejects every other point. */
  method ValidPointsScenario(distance: (Point, Point) -> real, p: Point, q: Point)
    returns (freshP: bool, freshQ: bool, addedP: bool, addedQ: bool)
    requires IsPlanarDistance(distance)
    requires p != q
    ensures !freshP && !freshQ
    ensures addedP && !addedQ
  {
    var provider := new MockProvider(distance);
    freshP := provider.IsValidPoint(p, None);
    freshQ := provider.IsValidPoint(q, None);
    provider.AddValidPoint(p);
    assert provider.added == [p];
    addedP := provider.IsValidPoint(p, None);
    addedQ := provider.IsValidPoint(q, None);
  }
}
