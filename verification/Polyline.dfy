/** Position along a route: the per-frame linear scan and its replacement, a binary
    search over precomputed cumulative distances. Coordinates, lengths and the
    interpolation parameter are exact reals; the metric and the bearing formula are
    parameters. */
module Polyline {

  datatype Point = Point(lat: real, lng: real)

  datatype Placement = Placement(pos: Point, brg: real, done: bool)

  type Metric = (Point, Point) -> real

  /** All that is asked of a distance: never negative, zero only between equal points. */
  ghost predicate IsMetric(metric: Metric) {
    forall a, b :: metric(a, b) >= 0.0 && (metric(a, b) == 0.0 ==> a == b)
  }

  function Lerp(a: Point, b: Point, t: real): Point {
    Point(a.lat + (b.lat - a.lat) * t, a.lng + (b.lng - a.lng) * t)
  }

  /** Metres from the first point to point i along the line. */
  function Cum(metric: Metric, pts: seq<Point>, i: nat): real
    requires i < |pts|
  {
    if i == 0 then 0.0 else Cum(metric, pts, i - 1) + metric(pts[i - 1], pts[i])
  }

  function Total(metric: Metric, pts: seq<Point>): real
    requires pts != []
  {
    Cum(metric, pts, |pts| - 1)
  }

  /** The first index from `from` on whose cumulative distance reaches dist. */
  function FirstReaching(metric: Metric, pts: seq<Point>, dist: real, from: nat): (i: nat)
    requires from < |pts| && Total(metric, pts) >= dist
    ensures from <= i < |pts| && Cum(metric, pts, i) >= dist
    ensures forall j | from <= j < i :: Cum(metric, pts, j) < dist
    decreases |pts| - from
  {
    if Cum(metric, pts, from) >= dist then from else FirstReaching(metric, pts, dist, from + 1)
  }

  /** Where the point `dist` metres along the line lies when it falls on the segment
      that ends at point i. */
  function OnSegment(metric: Metric, bearing: Metric, pts: seq<Point>, dist: real, i: nat): Placement
    requires 0 < i < |pts|
  {
    var seg := metric(pts[i - 1], pts[i]);
    var t := if seg == 0.0 then 0.0 else (dist - Cum(metric, pts, i - 1)) / seg;
    Placement(Lerp(pts[i - 1], pts[i], t), bearing(pts[i - 1], pts[i]), false)
  }

  function AtEnd(bearing: Metric, pts: seq<Point>): Placement
    requires |pts| >= 2
  {
    Placement(pts[|pts| - 1], bearing(pts[|pts| - 2], pts[|pts| - 1]), true)
  }

  function Degenerate(pts: seq<Point>): Placement
    requires |pts| < 2
  {
    Placement(if pts == [] then Point(0.0, 0.0) else pts[0], 0.0, true)
  }

  /** The position divides segment i in the proportion in which the distance does. */
  ghost predicate Divides(metric: Metric, pts: seq<Point>, dist: real, i: nat, pos: Point)
    requires 0 < i < |pts|
  {
    var (a, b, from, to) := (pts[i - 1], pts[i], Cum(metric, pts, i - 1), Cum(metric, pts, i));
    && (pos.lat - a.lat) * (to - from) == (b.lat - a.lat) * (dist - from)
    && (pos.lng - a.lng) * (to - from) == (b.lng - a.lng) * (dist - from)
    && (from == to ==> pos == a)
  }

  lemma SegmentDivides(metric: Metric, bearing: Metric, pts: seq<Point>, dist: real, i: nat)
    requires IsMetric(metric) && 0 < i < |pts|
    ensures Divides(metric, pts, dist, i, OnSegment(metric, bearing, pts, dist, i).pos)
  {
    var a, b, from := pts[i - 1], pts[i], Cum(metric, pts, i - 1);
    var seg := metric(a, b);
    assert Cum(metric, pts, i) - from == seg;
    if seg == 0.0 {
      assert a == b;
    } else {
      Scaled(a.lat, b.lat - a.lat, dist - from, seg);
      Scaled(a.lng, b.lng - a.lng, dist - from, seg);
    }
  }

  lemma Scaled(x: real, dx: real, d: real, seg: real)
    requires seg != 0.0
    ensures (x + dx * (d / seg) - x) * seg == dx * d
  {
    var t := d / seg;
    assert t * seg == d;
    assert (x + dx * t - x) * seg == dx * (t * seg);
  }

  // ---- the linear scan ----

  /** The placement the scan computes. */
  function Scan(metric: Metric, bearing: Metric, pts: seq<Point>, dist: real): Placement {
    if |pts| < 2 then Degenerate(pts)
    else if dist > Total(metric, pts) then AtEnd(bearing, pts)
    else OnSegment(metric, bearing, pts, dist, FirstReaching(metric, pts, dist, 1))
  }

  /** Segment i is the first whose end the distance does not exceed. */
  ghost predicate ReachedOn(metric: Metric, pts: seq<Point>, dist: real, i: nat) {
    0 < i < |pts| && (i == 1 || Cum(metric, pts, i - 1) < dist) && dist <= Cum(metric, pts, i)
  }

  lemma ScanFinds(metric: Metric, bearing: Metric, pts: seq<Point>, dist: real, i: nat)
    requires IsMetric(metric) && ReachedOn(metric, pts, dist, i)
    ensures Scan(metric, bearing, pts, dist) == OnSegment(metric, bearing, pts, dist, i)
  {
    CumMonotone(metric, pts, i, |pts| - 1);
    var k := FirstReaching(metric, pts, dist, 1);
    if k < i { CumMonotone(metric, pts, k, i - 1); }
  }

  /** Where the scan must place the point: past the end at the end, else on the first
      segment whose end it reaches, extrapolating the first one backwards. */
  ghost predicate ScanPlaced(metric: Metric, bearing: Metric, pts: seq<Point>, dist: real, r: Placement) {
    && (pts == [] ==> r == Placement(Point(0.0, 0.0), 0.0, true))
    && (|pts| == 1 ==> r == Placement(pts[0], 0.0, true))
    && (|pts| >= 2 && dist > Cum(metric, pts, |pts| - 1) ==>
          r == Placement(pts[|pts| - 1], bearing(pts[|pts| - 2], pts[|pts| - 1]), true))
    && (forall i: nat | ReachedOn(metric, pts, dist, i) ::
          Divides(metric, pts, dist, i, r.pos) && r.brg == bearing(pts[i - 1], pts[i]) && !r.done)
  }

  lemma ScanPlaces(metric: Metric, bearing: Metric, pts: seq<Point>, dist: real)
    requires IsMetric(metric)
    ensures ScanPlaced(metric, bearing, pts, dist, Scan(metric, bearing, pts, dist))
  {
    hide Divides;
    forall i: nat | ReachedOn(metric, pts, dist, i)
      ensures Scan(metric, bearing, pts, dist) == OnSegment(metric, bearing, pts, dist, i)
      ensures Divides(metric, pts, dist, i, OnSegment(metric, bearing, pts, dist, i).pos)
    {
      ScanFinds(metric, bearing, pts, dist, i);
      SegmentDivides(metric, bearing, pts, dist, i);
    }
  }

  method PointAtDistance(metric: Metric, bearing: Metric, pts: seq<Point>, dist: real) returns (r: Placement)
    requires IsMetric(metric)
    ensures r == Scan(metric, bearing, pts, dist) && ScanPlaced(metric, bearing, pts, dist, r)
  {
    hide ScanPlaced, Lerp;
    ScanPlaces(metric, bearing, pts, dist);
    if |pts| < 2 {
      return Degenerate(pts);
    }
    var acc := 0.0;
    for i := 1 to |pts|
      invariant acc == Cum(metric, pts, i - 1)
      invariant forall j | 1 <= j < i :: Cum(metric, pts, j) < dist
    {
      var seg := metric(pts[i - 1], pts[i]);
      if acc + seg >= dist {
        var t := if seg == 0.0 then 0.0 else (dist - acc) / seg;
        CumMonotone(metric, pts, i, |pts| - 1);
        assert FirstReaching(metric, pts, dist, 1) == i;
        return Placement(Lerp(pts[i - 1], pts[i], t), bearing(pts[i - 1], pts[i]), false);
      }
      acc := acc + seg;
    }
    r := AtEnd(bearing, pts);
  }

  // ---- the binary search ----

  ghost predicate IsCumulative(metric: Metric, pts: seq<Point>, cum: seq<real>) {
    |cum| == |pts| && forall i | 0 <= i < |pts| :: cum[i] == Cum(metric, pts, i)
  }

  /** Entry j + 1 is one leg further than entry j. */
  ghost predicate LegAdded(metric: Metric, pts: seq<Point>, cum: seq<real>, j: nat)
    requires j + 1 < |pts| == |cum|
  {
    cum[j + 1] == cum[j] + metric(pts[j], pts[j + 1])
  }

  /** The entries start at nothing and add up the legs. */
  ghost predicate Sums(metric: Metric, pts: seq<Point>, cum: seq<real>) {
    && |cum| == |pts| > 0 && cum[0] == 0.0
    && forall j: nat | j + 1 < |pts| :: LegAdded(metric, pts, cum, j)
  }

  lemma CumulativeSums(metric: Metric, pts: seq<Point>, cum: seq<real>)
    requires pts != [] && IsCumulative(metric, pts, cum)
    ensures Sums(metric, pts, cum)
  {
    forall j: nat | j + 1 < |pts| ensures LegAdded(metric, pts, cum, j) {
      assert cum[j + 1] == Cum(metric, pts, j + 1);
    }
  }

  /** For an empty line the program writes entry 0 all the same, which grows the array. */
  method CumulativeDistances(metric: Metric, pts: seq<Point>) returns (cum: array<real>)
    ensures fresh(cum)
    ensures if pts == [] then cum[..] == [0.0] else IsCumulative(metric, pts, cum[..])
    ensures pts != [] ==> Sums(metric, pts, cum[..])
  {
    cum := new real[if pts == [] then 1 else |pts|];
    cum[0] := 0.0;
    for i := 1 to cum.Length
      invariant cum[0] == 0.0 && forall j | 0 <= j < i && j < |pts| :: cum[j] == Cum(metric, pts, j)
    {
      cum[i] := cum[i - 1] + metric(pts[i - 1], pts[i]);
    }
    if pts != [] { CumulativeSums(metric, pts, cum[..]); }
  }

  /** The index the search must find: the first whose cumulative distance exceeds dist. */
  function FirstPassing(metric: Metric, pts: seq<Point>, dist: real, from: nat): (i: nat)
    requires from < |pts| && Total(metric, pts) > dist
    ensures from <= i < |pts| && Cum(metric, pts, i) > dist
    ensures forall j | from <= j < i :: Cum(metric, pts, j) <= dist
    decreases |pts| - from
  {
    if Cum(metric, pts, from) > dist then from else FirstPassing(metric, pts, dist, from + 1)
  }

  /** The placement the replacement computes. */
  function Lookup(metric: Metric, bearing: Metric, pts: seq<Point>, dist: real): Placement {
    if |pts| < 2 then Degenerate(pts)
    else if dist <= 0.0 then Placement(pts[0], bearing(pts[0], pts[1]), false)
    else if dist >= Total(metric, pts) then AtEnd(bearing, pts)
    else OnSegment(metric, bearing, pts, dist, FirstPassing(metric, pts, dist, 1))
  }

  /** The distance is on segment i, its end left out. */
  ghost predicate IsOn(metric: Metric, pts: seq<Point>, dist: real, i: nat) {
    0 < i < |pts| && 0.0 < dist && Cum(metric, pts, i - 1) <= dist < Cum(metric, pts, i)
  }

  lemma LookupFinds(metric: Metric, bearing: Metric, pts: seq<Point>, dist: real, i: nat)
    requires IsMetric(metric) && IsOn(metric, pts, dist, i)
    ensures Lookup(metric, bearing, pts, dist) == OnSegment(metric, bearing, pts, dist, i)
  {
    CumMonotone(metric, pts, i, |pts| - 1);
    var k := FirstPassing(metric, pts, dist, 1);
    if k < i { CumMonotone(metric, pts, k, i - 1); }
  }

  /** Where the search must place the point: clamped at both ends, else on the segment
      that the distance is on. */
  ghost predicate LookupPlaced(metric: Metric, bearing: Metric, pts: seq<Point>, dist: real, r: Placement) {
    && (pts == [] ==> r == Placement(Point(0.0, 0.0), 0.0, true))
    && (|pts| == 1 ==> r == Placement(pts[0], 0.0, true))
    && (|pts| >= 2 && dist <= 0.0 ==> r == Placement(pts[0], bearing(pts[0], pts[1]), false))
    && (|pts| >= 2 && 0.0 < dist && dist >= Cum(metric, pts, |pts| - 1) ==>
          r == Placement(pts[|pts| - 1], bearing(pts[|pts| - 2], pts[|pts| - 1]), true))
    && (forall i: nat | IsOn(metric, pts, dist, i) ::
          Divides(metric, pts, dist, i, r.pos) && r.brg == bearing(pts[i - 1], pts[i]) && !r.done)
  }

  lemma LookupPlaces(metric: Metric, bearing: Metric, pts: seq<Point>, dist: real)
    requires IsMetric(metric)
    ensures LookupPlaced(metric, bearing, pts, dist, Lookup(metric, bearing, pts, dist))
  {
    hide Divides;
    forall i: nat | IsOn(metric, pts, dist, i)
      ensures Lookup(metric, bearing, pts, dist) == OnSegment(metric, bearing, pts, dist, i)
      ensures Divides(metric, pts, dist, i, OnSegment(metric, bearing, pts, dist, i).pos)
    {
      LookupFinds(metric, bearing, pts, dist, i);
      SegmentDivides(metric, bearing, pts, dist, i);
    }
  }

  method PointAtDistanceCum(metric: Metric, bearing: Metric, pts: seq<Point>, cum: seq<real>, dist: real)
    returns (r: Placement)
    requires IsMetric(metric) && (|pts| >= 2 ==> IsCumulative(metric, pts, cum))
    ensures r == Lookup(metric, bearing, pts, dist) && LookupPlaced(metric, bearing, pts, dist, r)
  {
    hide LookupPlaced, Lerp;
    LookupPlaces(metric, bearing, pts, dist);
    if |pts| < 2 {
      return Degenerate(pts);
    }
    var total := cum[|cum| - 1];
    if dist <= 0.0 {
      return Placement(pts[0], bearing(pts[0], pts[1]), false);
    }
    if dist >= total {
      return AtEnd(bearing, pts);
    }
    var lo, hi := 1, |pts| - 1;
    while lo < hi
      invariant 1 <= lo <= hi < |pts|
      invariant forall j | 1 <= j < lo :: cum[j] <= dist
      invariant cum[hi] > dist
    {
      var mid := (lo + hi) / 2;
      if cum[mid] <= dist {
        forall j | 1 <= j <= mid ensures cum[j] <= dist {
          CumMonotone(metric, pts, j, mid);
        }
        lo := mid + 1;
      } else {
        hi := mid;
      }
    }
    assert lo == FirstPassing(metric, pts, dist, 1);
    var seg := cum[lo] - cum[lo - 1];
    var t := if seg == 0.0 then 0.0 else (dist - cum[lo - 1]) / seg;
    r := Placement(Lerp(pts[lo - 1], pts[lo], t), bearing(pts[lo - 1], pts[lo]), false);
  }

  // ---- the replacement refines the scan ----

  lemma {:induction false} CumMonotone(metric: Metric, pts: seq<Point>, i: nat, j: nat)
    requires IsMetric(metric) && i <= j < |pts|
    ensures Cum(metric, pts, i) <= Cum(metric, pts, j)
    decreases j - i
  {
    if i < j { CumMonotone(metric, pts, i, j - 1); }
  }

  /** Points with equal cumulative distance are the same point. */
  lemma {:induction false} LevelRunIsOnePoint(metric: Metric, pts: seq<Point>, i: nat, j: nat)
    requires IsMetric(metric) && i <= j < |pts| && Cum(metric, pts, i) == Cum(metric, pts, j)
    ensures pts[i] == pts[j]
    decreases j - i
  {
    if i < j {
      CumMonotone(metric, pts, i, j - 1);
      LevelRunIsOnePoint(metric, pts, i, j - 1);
    }
  }

  lemma LerpEnds(a: Point, b: Point)
    ensures Lerp(a, b, 0.0) == a && Lerp(a, b, 1.0) == b
  {
  }

  /** A segment whose end has cumulative distance dist places the point at that end. */
  lemma SegmentEnd(metric: Metric, bearing: Metric, pts: seq<Point>, dist: real, i: nat)
    requires IsMetric(metric) && 0 < i < |pts| && Cum(metric, pts, i) == dist
    ensures OnSegment(metric, bearing, pts, dist, i).pos == pts[i]
  {
    var seg := metric(pts[i - 1], pts[i]);
    LerpEnds(pts[i - 1], pts[i]);
    if seg != 0.0 { QuotientOne(dist - Cum(metric, pts, i - 1), seg); }
  }

  lemma QuotientOne(x: real, y: real)
    requires x == y != 0.0
    ensures x / y == 1.0
  {
  }

  /** A segment whose start has cumulative distance dist places the point at that start. */
  lemma SegmentStart(metric: Metric, bearing: Metric, pts: seq<Point>, dist: real, i: nat)
    requires 0 < i < |pts| && Cum(metric, pts, i - 1) == dist
    ensures OnSegment(metric, bearing, pts, dist, i).pos == pts[i - 1]
  {
  }

  /** dist falls strictly inside some segment, not on a vertex. */
  ghost predicate OffVertex(metric: Metric, pts: seq<Point>, dist: real) {
    forall j | 0 <= j < |pts| :: Cum(metric, pts, j) != dist
  }

  /** The search and the scan give the same position at every distance that is not
      negative; off the vertices they agree on the bearing as well. Their `done`
      flags differ exactly at the far end of a line of positive length. */
  lemma LookupRefinesScan(metric: Metric, bearing: Metric, pts: seq<Point>, dist: real)
    requires IsMetric(metric) && |pts| >= 2 && dist >= 0.0
    ensures Lookup(metric, bearing, pts, dist).pos == Scan(metric, bearing, pts, dist).pos
    ensures OffVertex(metric, pts, dist) ==>
      Lookup(metric, bearing, pts, dist) == Scan(metric, bearing, pts, dist)
    ensures Lookup(metric, bearing, pts, dist).done != Scan(metric, bearing, pts, dist).done
      <==> dist == Total(metric, pts) > 0.0
  {
    var total, last := Total(metric, pts), |pts| - 1;
    CumMonotone(metric, pts, 0, last);
    if dist <= total {
      var i := FirstReaching(metric, pts, dist, 1);
      if dist == 0.0 {
        CumMonotone(metric, pts, 0, 1);
        assert i == 1;
        SegmentStart(metric, bearing, pts, dist, 1);
      } else if dist == total {
        CumMonotone(metric, pts, i, last);
        SegmentEnd(metric, bearing, pts, dist, i);
        LevelRunIsOnePoint(metric, pts, i, last);
      } else {
        SameSegmentOrVertex(metric, bearing, pts, dist);
      }
    } else {
      assert Cum(metric, pts, 0) == 0.0;
    }
  }

  lemma SameSegmentOrVertex(metric: Metric, bearing: Metric, pts: seq<Point>, dist: real)
    requires IsMetric(metric) && |pts| >= 2 && 0.0 < dist < Total(metric, pts)
    ensures var i, k := FirstReaching(metric, pts, dist, 1), FirstPassing(metric, pts, dist, 1);
      && OnSegment(metric, bearing, pts, dist, i).pos == OnSegment(metric, bearing, pts, dist, k).pos
      && (OffVertex(metric, pts, dist) ==> i == k)
  {
    var i, k := FirstReaching(metric, pts, dist, 1), FirstPassing(metric, pts, dist, 1);
    assert i <= k;
    if Cum(metric, pts, i) == dist {
      assert i <= k - 1;
      CumMonotone(metric, pts, i, k - 1);
      SegmentEnd(metric, bearing, pts, dist, i);
      LevelRunIsOnePoint(metric, pts, i, k - 1);
      SegmentStart(metric, bearing, pts, dist, k);
    } else {
      assert i == k;
    }
  }

  /** Before the start the scan extrapolates backwards while the search clamps, so for
      a negative distance they agree exactly when the first two points coincide. */
  lemma NegativeDistance(metric: Metric, bearing: Metric, pts: seq<Point>, dist: real)
    requires IsMetric(metric) && |pts| >= 2 && dist < 0.0
    ensures Lookup(metric, bearing, pts, dist).pos == Scan(metric, bearing, pts, dist).pos
      <==> pts[0] == pts[1]
  {
    var a, b := pts[0], pts[1];
    CumMonotone(metric, pts, 0, 1);
    CumMonotone(metric, pts, 0, |pts| - 1);
    assert FirstReaching(metric, pts, dist, 1) == 1;
    var seg := metric(a, b);
    if seg == 0.0 {
      LerpEnds(a, b);
    } else {
      var t := dist / seg;
      assert t * seg == dist;
      assert t != 0.0;
      if (b.lat - a.lat) * t == 0.0 && (b.lng - a.lng) * t == 0.0 {
        assert b.lat - a.lat == 0.0 && b.lng - a.lng == 0.0;
      }
    }
  }

}
