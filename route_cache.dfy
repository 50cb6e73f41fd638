/**
 * The key builders of `RouteCache` (storage/cache.py). Coordinates are
 * integers here, written in decimal with a leading '-' when negative; all
 * that the keys rely on is that a coordinate's text is non-empty, contains
 * neither ',' nor ':', and determines the coordinate.
 */
module CacheKeys {
  import opened Geo

  predicate IsDigit(c: char) {
    '0' <= c <= '9'
  }

  /** No field separator of the keys occurs in `s`. */
  predicate Plain(s: string) {
    forall i :: 0 <= i < |s| ==> s[i] != ',' && s[i] != ':'
  }

  function DigitChar(d: nat): (c: char)
    requires d < 10
    ensures IsDigit(c)
  {
    ('0' as int + d) as char
  }

  /** Decimal digits of `n`, most significant first, without leading zeros. */
  function NaturalText(n: nat): (s: string)
    ensures |s| > 0 && forall i :: 0 <= i < |s| ==> IsDigit(s[i])
    ensures n >= 10 ==> |s| >= 2
    decreases n
  {
    if n < 10 then [DigitChar(n)] else NaturalText(n / 10) + [DigitChar(n % 10)]
  }

  function IntegerText(n: int): (s: string)
    ensures |s| > 0 && Plain(s)
  {
    if n < 0 then "-" + NaturalText(-n) else NaturalText(n)
  }

  /** `f"{p[0]},{p[1]}"`. */
  function PointText(p: Point): string {
    IntegerText(p.lat) + "," + IntegerText(p.lon)
  }

  /** `','.join(f'{p[0]},{p[1]}' for p in points)`. */
  function PointsText(points: seq<Point>): string
    decreases |points|
  {
    if |points| == 0 then ""
    else if |points| == 1 then PointText(points[0])
    else PointText(points[0]) + "," + PointsText(points[1..])
  }

  function RouteKey(src: Point, dst: Point): (key: string)
    ensures |key| > 6 && key[..6] == "route:"
  {
    "route:" + PointText(src) + ":" + PointText(dst)
  }

  function DistanceKey(src: Point, dst: Point): (key: string)
    ensures |key| > 9 && key[..9] == "distance:"
  {
    "distance:" + PointText(src) + ":" + PointText(dst)
  }

  function MatrixKey(points: seq<Point>): (key: string)
    ensures |key| >= 7 && key[..7] == "matrix:"
    ensures |points| > 0 ==> |key| > 7
  {
    "matrix:" + PointsText(points)
  }

  lemma {:induction false} NaturalTextInjective(m: nat, n: nat)
    requires NaturalText(m) == NaturalText(n)
    ensures m == n
    decreases m
  {
    var s := NaturalText(m);
    if m < 10 {
      assert |s| == 1;
      assert n < 10;
      assert s[0] == DigitChar(m) == DigitChar(n);
    } else {
      assert |s| >= 2;
      assert n >= 10;
      var k := |s| - 1;
      assert s[k] == DigitChar(m % 10) == DigitChar(n % 10);
      assert s[..k] == NaturalText(m / 10) == NaturalText(n / 10);
      NaturalTextInjective(m / 10, n / 10);
    }
  }

  lemma IntegerTextInjective(m: int, n: int)
    requires IntegerText(m) == IntegerText(n)
    ensures m == n
  {
    var s := IntegerText(m);
    if m < 0 {
      assert s[0] == '-';
      assert n < 0;
      assert s[1..] == NaturalText(-m) == NaturalText(-n);
      NaturalTextInjective(-m, -n);
    } else {
      assert IsDigit(s[0]);
      assert n >= 0;
      NaturalTextInjective(m, n);
    }
  }

  /** Index of the first `sep` in `t`, or `|t|` when there is none: where the first field ends. */
  function FieldEnd(t: string, sep: char): (k: nat)
    ensures k <= |t|
    decreases |t|
  {
    if |t| == 0 || t[0] == sep then 0 else 1 + FieldEnd(t[1..], sep)
  }

  /** A separator-free field followed by nothing or by a separator ends where the field does. */
  lemma {:induction false} FieldEndOf(x: string, rest: string, sep: char)
    requires forall i :: 0 <= i < |x| ==> x[i] != sep
    requires rest == [] || rest[0] == sep
    ensures FieldEnd(x + rest, sep) == |x|
    decreases |x|
  {
    if |x| > 0 {
      assert (x + rest)[1..] == x[1..] + rest;
      FieldEndOf(x[1..], rest, sep);
    }
  }

  /** Two texts that each start with a separator-free field split at the same place. */
  lemma SplitAtSeparator(x: string, y: string, x': string, y': string, sep: char)
    requires forall i :: 0 <= i < |x| ==> x[i] != sep
    requires forall i :: 0 <= i < |x'| ==> x'[i] != sep
    requires x + [sep] + y == x' + [sep] + y'
    ensures x == x' && y == y'
  {
    var s := x + [sep] + y;
    assert s == x + ([sep] + y) && s == x' + ([sep] + y');
    FieldEndOf(x, [sep] + y, sep);
    FieldEndOf(x', [sep] + y', sep);
    assert x == s[..|x|] == x';
    assert y == s[|x| + 1..] == y';
  }

  lemma DropPrefix(p: string, x: string, y: string)
    requires p + x == p + y
    ensures x == y
  {
    assert x == (p + x)[|p|..];
  }

  lemma PointTextInjective(a: Point, b: Point)
    requires PointText(a) == PointText(b)
    ensures a == b
  {
    SplitAtSeparator(IntegerText(a.lat), IntegerText(a.lon), IntegerText(b.lat), IntegerText(b.lon), ',');
    IntegerTextInjective(a.lat, b.lat);
    IntegerTextInjective(a.lon, b.lon);
  }

  /** A pair of points texts as two fields separated by ':', so the pair can be read back. */
  lemma PairTextInjective(a: Point, b: Point, c: Point, d: Point)
    requires PointText(a) + ":" + PointText(b) == PointText(c) + ":" + PointText(d)
    ensures a == c && b == d
  {
    assert Plain(IntegerText(a.lat)) && Plain(IntegerText(a.lon));
    assert Plain(IntegerText(c.lat)) && Plain(IntegerText(c.lon));
    SplitAtSeparator(PointText(a), PointText(b), PointText(c), PointText(d), ':');
    PointTextInjective(a, c);
    PointTextInjective(b, d);
  }

  /** A key made of a fixed prefix and a pair of points determines the pair. */
  lemma PrefixedPairInjective(prefix: string, a: Point, b: Point, c: Point, d: Point)
    requires prefix + PointText(a) + ":" + PointText(b) == prefix + PointText(c) + ":" + PointText(d)
    ensures a == c && b == d
  {
    Regroup2(prefix, PointText(a), PointText(b));
    Regroup2(prefix, PointText(c), PointText(d));
    DropPrefix(prefix, PointText(a) + ":" + PointText(b), PointText(c) + ":" + PointText(d));
    PairTextInjective(a, b, c, d);
  }

  lemma Regroup2(prefix: string, u: string, v: string)
    ensures prefix + u + ":" + v == prefix + (u + ":" + v)
  {
  }

  lemma RouteKeyDetermines(a: Point, b: Point, c: Point, d: Point)
    requires RouteKey(a, b) == RouteKey(c, d)
    ensures a == c && b == d
  {
    PrefixedPairInjective("route:", a, b, c, d);
  }

  /** Route keys are directional: they determine the source and the destination. */
  lemma RouteKeyInjective(a: Point, b: Point, c: Point, d: Point)
    ensures RouteKey(a, b) == RouteKey(c, d) <==> a == c && b == d
    ensures RouteKey(a, b) == RouteKey(b, a) <==> a == b
  {
    if RouteKey(a, b) == RouteKey(c, d) {
      RouteKeyDetermines(a, b, c, d);
    }
    if RouteKey(a, b) == RouteKey(b, a) {
      RouteKeyDetermines(a, b, b, a);
    }
  }

  /** Distance keys are directional too. */
  lemma DistanceKeyInjective(a: Point, b: Point, c: Point, d: Point)
    ensures DistanceKey(a, b) == DistanceKey(c, d) <==> a == c && b == d
  {
    if DistanceKey(a, b) == DistanceKey(c, d) {
      PrefixedPairInjective("distance:", a, b, c, d);
    }
  }

  lemma Regroup(a: string, b: string, c: string)
    ensures (a + [','] + b) + c == a + [','] + (b + c)
  {
  }

  /** The first point's text opens the points text: `lat,` then `lon` and whatever follows. */
  lemma PointsTextHead(ps: seq<Point>)
    requires |ps| > 0
    ensures PointsText(ps) == IntegerText(ps[0].lat) + [','] + (IntegerText(ps[0].lon) + (if |ps| == 1 then "" else "," + PointsText(ps[1..])))
  {
    var rest := if |ps| == 1 then "" else "," + PointsText(ps[1..]);
    assert PointsText(ps) == PointText(ps[0]) + rest;
    Regroup(IntegerText(ps[0].lat), IntegerText(ps[0].lon), rest);
  }

  /**
   * A point's text followed by nothing or by a ',' can be read back: equal
   * texts of that shape have equal points and equal remainders.
   */
  lemma PointThenRest(p: Point, q: Point, restP: string, restQ: string)
    requires restP == "" || restP[0] == ','
    requires restQ == "" || restQ[0] == ','
    requires IntegerText(p.lat) + [','] + (IntegerText(p.lon) + restP) == IntegerText(q.lat) + [','] + (IntegerText(q.lon) + restQ)
    ensures p == q && restP == restQ
  {
    var lonP, lonQ := IntegerText(p.lon), IntegerText(q.lon);
    SplitAtSeparator(IntegerText(p.lat), lonP + restP, IntegerText(q.lat), lonQ + restQ, ',');
    IntegerTextInjective(p.lat, q.lat);
    FieldEndOf(lonP, restP, ',');
    FieldEndOf(lonQ, restQ, ',');
    var t := lonP + restP;
    assert lonP == t[..|lonP|] == lonQ;
    assert restP == t[|lonP|..] == restQ;
    IntegerTextInjective(p.lon, q.lon);
  }

  /** Only the empty list of points has the empty text. */
  lemma PointsTextEmpty(ps: seq<Point>)
    ensures PointsText(ps) == "" <==> |ps| == 0
  {
    if |ps| > 0 {
      PointsTextHead(ps);
    }
  }

  lemma {:induction false} PointsTextInjective(ps: seq<Point>, qs: seq<Point>)
    requires PointsText(ps) == PointsText(qs)
    ensures ps == qs
    decreases |ps|
  {
    PointsTextEmpty(ps);
    PointsTextEmpty(qs);
    if |ps| > 0 {
      var restP := if |ps| == 1 then "" else "," + PointsText(ps[1..]);
      var restQ := if |qs| == 1 then "" else "," + PointsText(qs[1..]);
      PointsTextHead(ps);
      PointsTextHead(qs);
      PointThenRest(ps[0], qs[0], restP, restQ);
      if |ps| == 1 {
        assert |qs| == 1;
        assert ps == [ps[0]] && qs == [qs[0]];
      } else {
        assert |qs| > 1;
        assert PointsText(ps[1..]) == restP[1..] == PointsText(qs[1..]);
        PointsTextInjective(ps[1..], qs[1..]);
        assert ps == [ps[0]] + ps[1..] && qs == [qs[0]] + qs[1..];
      }
    }
  }

  /** The matrix key depends on the points and on their order: equal keys mean equal point lists. */
  lemma MatrixKeyInjective(ps: seq<Point>, qs: seq<Point>)
    ensures MatrixKey(ps) == MatrixKey(qs) <==> ps == qs
  {
    if MatrixKey(ps) == MatrixKey(qs) {
      DropPrefix("matrix:", PointsText(ps), PointsText(qs));
      PointsTextInjective(ps, qs);
    }
  }

  /** The three namespaces never share a key. */
  lemma NamespacesDisjoint(a: Point, b: Point, c: Point, d: Point, ps: seq<Point>)
    ensures RouteKey(a, b) != DistanceKey(c, d)
    ensures RouteKey(a, b) != MatrixKey(ps)
    ensures DistanceKey(c, d) != MatrixKey(ps)
  {
    assert RouteKey(a, b)[0] == 'r';
    assert DistanceKey(c, d)[0] == 'd';
    assert MatrixKey(ps)[0] == 'm';
  }
}

/**
 * `RouteCache` (storage/cache.py): routes, distances and distance matrices
 * stored in a local cache under namespaced keys, routes for an hour and
 * distances and matrices for a day.
 */
module RouteCaching {
  import opened Wrappers
  import opened Geo
  import opened Cache
  import opened CacheProperties
  import opened CacheKeys

  /** What the route cache stores: a route's points, a distance, or a distance matrix. */
  datatype CachedValue =
    | RouteEntry(points: seq<Point>)
    | DistanceEntry(distance: real)
    | MatrixEntry(matrix: map<(Point, Point), real>)

  const RouteTtl: int := 3600
  const DistanceTtl: int := 86400

  class RouteCache {
    const provider: LocalCacheProvider<CachedValue>
    const routeTtl: int
    const distanceTtl: int

    constructor(provider: LocalCacheProvider<CachedValue>)
      ensures this.provider == provider
      ensures routeTtl == RouteTtl && distanceTtl == DistanceTtl
    {
      this.provider := provider;
      routeTtl := RouteTtl;
      distanceTtl := DistanceTtl;
    }

    method GetRoute(src: Point, dst: Point, now: int) returns (value: Option<CachedValue>)
      modifies provider
      ensures (provider.State(), value) == CacheGet(old(provider.State()), RouteKey(src, dst), now)
    {
      value := provider.Get(RouteKey(src, dst), now);
    }

    method SetRoute(src: Point, dst: Point, route: seq<Point>, now: int) returns (ok: bool)
      modifies provider
      ensures provider.State() == CacheSet(old(provider.State()), RouteKey(src, dst), RouteEntry(route), Some(routeTtl), now)
      ensures ok == SetSucceeds(Some(routeTtl), now)
    {
      ok := provider.Set(RouteKey(src, dst), RouteEntry(route), Some(routeTtl), now);
    }

    method GetDistance(src: Point, dst: Point, now: int) returns (value: Option<CachedValue>)
      modifies provider
      ensures (provider.State(), value) == CacheGet(old(provider.State()), DistanceKey(src, dst), now)
    {
      value := provider.Get(DistanceKey(src, dst), now);
    }

    method SetDistance(src: Point, dst: Point, distance: real, now: int) returns (ok: bool)
      modifies provider
      ensures provider.State() == CacheSet(old(provider.State()), DistanceKey(src, dst), DistanceEntry(distance), Some(distanceTtl), now)
      ensures ok == SetSucceeds(Some(distanceTtl), now)
    {
      ok := provider.Set(DistanceKey(src, dst), DistanceEntry(distance), Some(distanceTtl), now);
    }

    method GetDistanceMatrix(points: seq<Point>, now: int) returns (value: Option<CachedValue>)
      modifies provider
      ensures (provider.State(), value) == CacheGet(old(provider.State()), MatrixKey(points), now)
    {
      value := provider.Get(MatrixKey(points), now);
    }

    method SetDistanceMatrix(points: seq<Point>, matrix: map<(Point, Point), real>, now: int) returns (ok: bool)
      modifies provider
      ensures provider.State() == CacheSet(old(provider.State()), MatrixKey(points), MatrixEntry(matrix), Some(distanceTtl), now)
      ensures ok == SetSucceeds(Some(distanceTtl), now)
    {
      ok := provider.Set(MatrixKey(points), MatrixEntry(matrix), Some(distanceTtl), now);
    }
  }

  /** A route stored at time `t` reads back for one hour, up to and including second `t + 3600`. */
  lemma RouteEntryLifetime(st: Store<CachedValue>, src: Point, dst: Point, route: seq<Point>, t: int, now: int)
    requires Representable(t + 3600)
    ensures var written := CacheSet(st, RouteKey(src, dst), RouteEntry(route), Some(RouteTtl), t);
      CacheGet(written, RouteKey(src, dst), now).1 == Some(RouteEntry(route)) <==> now <= t + 3600
  {
    SetThenGet(st, RouteKey(src, dst), RouteEntry(route), RouteTtl, t, now);
  }

  /** Distances and matrices read back for a day. */
  lemma DistanceEntryLifetime(st: Store<CachedValue>, src: Point, dst: Point, distance: real, points: seq<Point>,
                              matrix: map<(Point, Point), real>, t: int, now: int)
    requires Representable(t + 86400)
    ensures var written := CacheSet(st, DistanceKey(src, dst), DistanceEntry(distance), Some(DistanceTtl), t);
      CacheGet(written, DistanceKey(src, dst), now).1 == Some(DistanceEntry(distance)) <==> now <= t + 86400
    ensures var written := CacheSet(st, MatrixKey(points), MatrixEntry(matrix), Some(DistanceTtl), t);
      CacheGet(written, MatrixKey(points), now).1 == Some(MatrixEntry(matrix)) <==> now <= t + 86400
  {
    SetThenGet(st, DistanceKey(src, dst), DistanceEntry(distance), DistanceTtl, t, now);
    SetThenGet(st, MatrixKey(points), MatrixEntry(matrix), DistanceTtl, t, now);
  }

  /**
   * Writes made at a representable time `t` succeed unless `t` lies within
   * the last hour (routes) or the last day (distances, matrices) before the
   * largest `datetime`.
   */
  lemma WritesSucceed(t: int)
    requires Representable(t)
    ensures SetSucceeds(Some(RouteTtl), t) <==> t <= MaxInstant - 3600
    ensures SetSucceeds(Some(DistanceTtl), t) <==> t <= MaxInstant - 86400
  {
  }

  /** Storing the route from `a` to `b` leaves the entry for `b` to `a` as it was, when `a != b`. */
  lemma ReverseRouteUntouched(st: Store<CachedValue>, a: Point, b: Point, route: seq<Point>, t: int)
    requires a != b
    ensures var after := CacheSet(st, RouteKey(a, b), RouteEntry(route), Some(RouteTtl), t);
      var reverse := RouteKey(b, a);
      (reverse in after.cache <==> reverse in st.cache)
      && (reverse in st.cache ==> after.cache[reverse] == st.cache[reverse])
      && (reverse in after.ttls <==> reverse in st.ttls)
      && (reverse in st.ttls ==> after.ttls[reverse] == st.ttls[reverse])
  {
    RouteKeyInjective(a, b, b, a);
    OtherKeysUnchanged(st, RouteKey(a, b), RouteKey(b, a), RouteEntry(route), Some(RouteTtl), t);
  }
}
