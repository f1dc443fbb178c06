/** What one world tick does to one vehicle (world.py), as functions on values.
    `path` is the router: any function giving a non-empty polyline. */
module Motion {
  import opened Geo
  import opened Models

  type Polyline = p: seq<Point> | p != [] witness [Point(0.0, 0.0)]

  type Router = (Point, Point) -> Polyline

  /** `StraightRouter`. */
  function Straight(a: Point, b: Point): Polyline {
    [a, b]
  }

  datatype RoadPiece = RoadPiece(
    to: Point,
    poly: seq<Point>,
    cum: seq<real>,
    totalRoad: real,
    straightDist: real,
    straightTT: real,
    elapsed: real)

  predicate WellShaped(s: RoadPiece) {
    |s.poly| > 0 && |s.cum| == |s.poly| && s.cum[0] == 0.0 && s.totalRoad == s.cum[|s.cum| - 1]
  }

  /** The cached piece of road a vehicle is on. */
  type Segment = s: RoadPiece | WellShaped(s)
    witness RoadPiece(Point(0.0, 0.0), [Point(0.0, 0.0)], [0.0], 0.0, 0.0, 0.0, 0.0)

  /** Arc length of the first `k + 1` points of a polyline. */
  function ArcLength(d: Distance, poly: seq<Point>, k: nat): real
    requires k < |poly|
  {
    if k == 0 then 0.0 else ArcLength(d, poly, k - 1) + d(poly[k - 1], poly[k])
  }

  function ArcLengths(d: Distance, poly: seq<Point>): (cum: seq<real>)
    ensures |cum| == |poly|
    ensures forall k :: 0 <= k < |poly| ==> cum[k] == ArcLength(d, poly, k)
  {
    seq(|poly|, k requires 0 <= k < |poly| => ArcLength(d, poly, k))
  }

  function MakeSegment(d: Distance, path: Router, start: Point, target: Point): Segment {
    var poly := path(start, target);
    RoadPiece(target, poly, ArcLengths(d, poly), ArcLength(d, poly, |poly| - 1), d(start, target),
            TravelTime(d, start, target), 0.0)
  }

  /** The number of leading entries that are at most `x` (`bisect_right` on a sorted list). */
  function BisectRight(cum: seq<real>, x: real): (n: nat)
    ensures n <= |cum|
    ensures forall k :: 0 <= k < n ==> cum[k] <= x
    ensures n < |cum| ==> x < cum[n]
  {
    if cum == [] || x < cum[0] then 0 else 1 + BisectRight(cum[1..], x)
  }

  /** `_interp`: the point a fraction `f` of the way along the road. */
  function Interp(seg: Segment, f: real): Point {
    InterpAt(seg, f, Times(f, seg.totalRoad))
  }

  /** The same, `x` being the arc length looked up between the ends. */
  function InterpAt(seg: Segment, f: real, x: real): Point {
    if seg.totalRoad <= 0.0 || f >= 1.0 then seg.poly[|seg.poly| - 1]
    else if f <= 0.0 then seg.poly[0]
    else AtArcLength(seg, x)
  }

  /** The point at arc length `x` of the road. */
  function AtArcLength(seg: Segment, x: real): Point
    requires |seg.poly| > 1
  {
    var i := PieceIndex(seg.cum, x);
    var len := seg.cum[i + 1] - seg.cum[i];
    if len <= 0.0 then seg.poly[i]
    else Lerp(seg.poly[i], seg.poly[i + 1], (x - seg.cum[i]) / len)
  }

  /** The polyline piece `_interp` picks for arc length `x`. */
  function PieceIndex(cum: seq<real>, x: real): (i: nat)
    requires |cum| >= 2
    ensures i + 1 < |cum|
  {
    var k := BisectRight(cum, x) - 1;
    if k < 0 then 0 else if k > |cum| - 2 then |cum| - 2 else k
  }

  // ---------------------------------------------------------------- a tick

  /** Where a vehicle is on the piece of road it is driving. */
  function RoadPosition(seg: Segment): Point {
    if seg.straightTT > 0.0 then Interp(seg, seg.elapsed / seg.straightTT) else seg.to
  }

  /** How vehicles move: the distance, the router, and the position on the piece of road being
      driven.  In the simulator the last is always `RoadPosition`. */
  datatype Roads = Roads(d: Distance, path: Router, at: Segment -> Point)

  /** A vehicle, its cached road piece, and the requests. */
  datatype Tick = Tick(v: VehicleState, seg: Option<Segment>, requests: map<int, RequestState>)

  /** `_current_target`. */
  function Target(v: VehicleState): Option<Point> {
    if v.route != [] then Some(v.route[0].location) else v.repositionTarget
  }

  /** `_segment`: the cached piece if it leads to the target, else a new one. */
  function CurrentSegment(roads: Roads, v: VehicleState, seg: Option<Segment>, target: Point): Segment {
    if seg.Some? && seg.value.to == target then seg.value
    else MakeSegment(roads.d, roads.path, v.location, target)
  }

  /** Writing the boarding time on the first remaining dropoff of request `id`. */
  function StampBoarding(route: seq<Stop>, id: int, now: real): (r: seq<Stop>)
    ensures |r| == |route|
  {
    if route == [] then []
    else if route[0].requestId == id && route[0].stopType.Dropoff? then [route[0].(boardedAt := Some(now))] + route[1..]
    else [route[0]] + StampBoarding(route[1..], id, now)
  }

  /** `_process_stop` on the first stop of the route. */
  function ProcessStop(t: Tick, now: real): Tick
    requires t.v.route != []
  {
    var stop := t.v.route[0];
    if stop.requestId !in t.requests then t
    else
      var req := t.requests[stop.requestId];
      if stop.stopType.Pickup? then
        t.(v := t.v.(onboard := t.v.onboard + req.partySize, route := StampBoarding(t.v.route, req.id, now)),
           requests := t.requests[stop.requestId := req.(status := Onboard, pickupTime := Some(now))])
      else
        t.(v := t.v.(onboard := if t.v.onboard - req.partySize > 0 then t.v.onboard - req.partySize else 0),
           requests := t.requests[stop.requestId := req.(status := Completed, dropoffTime := Some(now))])
  }

  /** Reaching the current target: the stop is processed and removed, or the reposition ends. */
  function Arrive(t: Tick, target: Point, now: real): (r: Tick)
    requires Target(t.v) == Some(target)
    ensures |r.v.route| == if t.v.route != [] then |t.v.route| - 1 else 0
    ensures r.v.repositionTarget == if t.v.route != [] then t.v.repositionTarget else None
    ensures r.v.distanceTraveled == t.v.distanceTraveled && r.v.busyTime == t.v.busyTime && r.seg == None
  {
    var here := t.(v := t.v.(location := target), seg := None);
    if here.v.route != [] then
      var done := ProcessStop(here, now);
      done.(v := done.v.(route := done.v.route[1..]))
    else
      here.(v := here.v.(repositionTarget := None))
  }

  /** Driving for `used` seconds along `seg`, which takes `seg.straightTT` in all. */
  function Drive(roads: Roads, v: VehicleState, seg: Segment, used: real): VehicleState {
    if seg.straightTT > 0.0 then
      v.(distanceTraveled := v.distanceTraveled + seg.straightDist * (used / seg.straightTT),
         busyTime := v.busyTime + used,
         location := roads.at(seg.(elapsed := seg.elapsed + used)))
    else v
  }

  /** How many arrivals are still possible. */
  function Arrivals(v: VehicleState): nat {
    |v.route| + if v.repositionTarget.Some? then 1 else 0
  }

  /** Seconds of driving left on a piece of road. */
  function Left(seg: Segment): real {
    if seg.straightTT <= 0.0 then 0.0 else seg.straightTT - seg.elapsed
  }

  /** `_advance`. */
  function Advance(roads: Roads, t: Tick, remaining: real, now: real): (r: Tick)
    decreases Arrivals(t.v)
  {
    if remaining <= 0.0 then t
    else if Target(t.v).None? then t.(seg := None)
    else
      var target := Target(t.v).value;
      var seg := CurrentSegment(roads, t.v, t.seg, target);
      if remaining >= Left(seg) then
        Advance(roads, Arrive(t.(v := Drive(roads, t.v, seg, Left(seg))), target, now), remaining - Left(seg), now)
      else
        t.(v := Drive(roads, t.v, seg, remaining), seg := Some(seg.(elapsed := seg.elapsed + remaining)))
  }

  // ---------------------------------------------------------------- the road: position at an arc length

  /** `seg` is the road from `start`, part of it already driven. */
  ghost predicate SegmentFrom(d: Distance, path: Router, start: Point, seg: Segment) {
    seg == MakeSegment(d, path, start, seg.to).(elapsed := seg.elapsed)
  }

  lemma Ratio(x: real, y: real)
    requires 0.0 <= x <= y && 0.0 < y
    ensures 0.0 <= x / y <= 1.0 && x / y * y == x
  {
  }

  /** The point `part` of the way along a piece of road. */
  lemma AlongPiece(d: Distance, a: Point, b: Point, part: real)
    requires Metric(d) && 0.0 <= part <= d(a, b) && 0.0 < d(a, b)
    ensures d(a, Lerp(a, b, part / d(a, b))) == part
    ensures d(Lerp(a, b, part / d(a, b)), b) == d(a, b) - part
  {
    var t := part / d(a, b);
    Ratio(part, d(a, b));
    assert d(Lerp(a, b, t), b) == (1.0 - t) * d(a, b) && d(a, Lerp(a, b, t)) == t * d(a, b);
  }

  /** The point `_interp` gives for arc length `x` is on the one piece of road whose arc lengths
      contain `x`, exactly that far from the start of the road. */
  lemma ArcLengthPosition(d: Distance, path: Router, start: Point, seg: Segment, x: real) returns (i: nat)
    requires Metric(d) && SegmentFrom(d, path, start, seg) && 0.0 <= x < seg.totalRoad
    ensures i + 1 < |seg.poly| && seg.cum[i] <= x < seg.cum[i + 1]
    ensures seg.cum[i] + d(seg.poly[i], AtArcLength(seg, x)) == x
    ensures d(AtArcLength(seg, x), seg.poly[i + 1]) == seg.cum[i + 1] - x
  {
    i := PieceIndex(seg.cum, x);
    assert i == BisectRight(seg.cum, x) - 1;
    assert seg.cum[i + 1] - seg.cum[i] == d(seg.poly[i], seg.poly[i + 1]);
    AlongPiece(d, seg.poly[i], seg.poly[i + 1], x - seg.cum[i]);
  }

  /** A share of the way, and its arc length. */
  lemma PartOf(f: real, y: real, x: real)
    requires 0.0 <= f <= 1.0 && 0.0 < y && x == Times(f, y)
    ensures 0.0 <= x <= y && (f == 0.0 <==> x == 0.0) && (f == 1.0 <==> x == y)
  {
    if 0.0 < f < 1.0 {
      Positive(f, y);
      PartIsLess(f, y, x);
    }
  }

  /** The point `_interp` gives for share `f` and arc length `x`, which are the ends together, lies on a piece of the
      road, at exactly that arc length. */
  lemma InterpAtLength(d: Distance, path: Router, start: Point, seg: Segment, f: real, x: real) returns (i: nat)
    requires Metric(d) && SegmentFrom(d, path, start, seg) && 0.0 < seg.totalRoad
    requires 0.0 <= f <= 1.0 && 0.0 <= x <= seg.totalRoad
    requires (f == 0.0 <==> x == 0.0) && (f == 1.0 <==> x == seg.totalRoad)
    ensures i + 1 < |seg.poly| && seg.cum[i] <= x <= seg.cum[i + 1]
    ensures seg.cum[i] + d(seg.poly[i], InterpAt(seg, f, x)) == x
    ensures d(InterpAt(seg, f, x), seg.poly[i + 1]) == seg.cum[i + 1] - x
  {
    if 0.0 < f < 1.0 {
      i := ArcLengthPosition(d, path, start, seg, x);
    } else {
      i := if f == 0.0 then 0 else |seg.poly| - 2;
      assert seg.cum[i + 1] - seg.cum[i] == d(seg.poly[i], seg.poly[i + 1]);
      assert d(seg.poly[i], seg.poly[i + 1]) >= 0.0;
    }
  }

  /** The point at share `f` of the road is at exactly that share of its arc length. */
  lemma InterpIsAtShare(d: Distance, path: Router, start: Point, seg: Segment, f: real, x: real) returns (i: nat)
    requires Metric(d) && SegmentFrom(d, path, start, seg) && 0.0 < seg.totalRoad
    requires 0.0 <= f <= 1.0 && x == Times(f, seg.totalRoad)
    ensures i + 1 < |seg.poly| && seg.cum[i] <= x <= seg.cum[i + 1]
    ensures seg.cum[i] + d(seg.poly[i], Interp(seg, f)) == x
    ensures d(Interp(seg, f), seg.poly[i + 1]) == seg.cum[i + 1] - x
  {
    PartOf(f, seg.totalRoad, x);
    i := InterpAtLength(d, path, start, seg, f, x);
  }

  lemma ShareIs(f: real, y: real, x: real)
    requires 0.0 < y && x == Times(f, y)
    ensures x / y == f
  {
    var q := x / y;
    assert q * y == x;
    SameFactor(q, f, y);
  }

  /** A vehicle that has driven a share `f` of the time of its piece of road has driven that share of the road: `x`
      kilometres of it. */
  lemma PositionIsAtShare(d: Distance, path: Router, start: Point, seg: Segment, f: real, x: real) returns (i: nat)
    requires Metric(d) && SegmentFrom(d, path, start, seg) && 0.0 < seg.totalRoad
    requires 0.0 < seg.straightTT && 0.0 <= f <= 1.0
    requires seg.elapsed == Times(f, seg.straightTT) && x == Times(f, seg.totalRoad)
    ensures i + 1 < |seg.poly| && seg.cum[i] <= x <= seg.cum[i + 1]
    ensures seg.cum[i] + d(seg.poly[i], RoadPosition(seg)) == x
    ensures d(RoadPosition(seg), seg.poly[i + 1]) == seg.cum[i + 1] - x
  {
    ShareIs(f, seg.straightTT, seg.elapsed);
    i := InterpIsAtShare(d, path, start, seg, f, x);
  }

  // ---------------------------------------------------------------- accounting

  /** Kilometres driven are the default speed, 24 km/h, times the seconds spent driving. */
  ghost predicate Accounted(v: VehicleState) {
    v.distanceTraveled * 3600.0 == 24.0 * v.busyTime
  }

  ghost predicate CachePriced(seg: Option<Segment>) {
    seg.Some? ==> seg.value.straightTT == seg.value.straightDist / 24.0 * 3600.0
  }

  lemma ShareOfTrip(dist: real, tt: real, used: real)
    requires tt > 0.0 && tt == dist / 24.0 * 3600.0
    ensures dist * (used / tt) * 3600.0 == 24.0 * used
  {
    var q := used / tt;
    assert q * tt == used;
    assert dist * q == (tt * q) / 150.0;
  }

  lemma DriveAccounts(roads: Roads, v: VehicleState, seg: Segment, used: real)
    requires CachePriced(Some(seg)) && Accounted(v)
    ensures Accounted(Drive(roads, v, seg, used))
  {
    if seg.straightTT > 0.0 {
      ShareOfTrip(seg.straightDist, seg.straightTT, used);
    }
  }

  lemma ArriveAccounts(t: Tick, target: Point, now: real)
    requires Accounted(t.v) && Target(t.v) == Some(target)
    ensures Accounted(Arrive(t, target, now).v) && Arrive(t, target, now).seg.None?
    ensures Arrivals(Arrive(t, target, now).v) < Arrivals(t.v)
  {
  }

  /** The rest of a tick after the next arrival. */
  lemma AccountsToArrival(roads: Roads, t: Tick, remaining: real, now: real) returns (r: Tick, left: real)
    requires CachePriced(t.seg) && Accounted(t.v) && 0.0 < remaining && Target(t.v).Some?
    requires remaining >= Left(CurrentSegment(roads, t.v, t.seg, Target(t.v).value))
    ensures CachePriced(r.seg) && Accounted(r.v) && Arrivals(r.v) < Arrivals(t.v)
    ensures Advance(roads, t, remaining, now) == Advance(roads, r, left, now)
  {
    var target := Target(t.v).value;
    var seg := CurrentSegment(roads, t.v, t.seg, target);
    DriveAccounts(roads, t.v, seg, Left(seg));
    var there := t.(v := Drive(roads, t.v, seg, Left(seg)));
    ArriveAccounts(there, target, now);
    r, left := Arrive(there, target, now), remaining - Left(seg);
  }

  /** A tick that ends on the road. */
  lemma AccountsOnTheRoad(roads: Roads, t: Tick, remaining: real, now: real) returns (r: Tick)
    requires CachePriced(t.seg) && Accounted(t.v) && 0.0 < remaining && Target(t.v).Some?
    requires remaining < Left(CurrentSegment(roads, t.v, t.seg, Target(t.v).value))
    ensures CachePriced(r.seg) && Accounted(r.v) && r == Advance(roads, t, remaining, now)
  {
    var seg := CurrentSegment(roads, t.v, t.seg, Target(t.v).value);
    DriveAccounts(roads, t.v, seg, remaining);
    r := t.(v := Drive(roads, t.v, seg, remaining), seg := Some(seg.(elapsed := seg.elapsed + remaining)));
  }

  /** Every tick keeps distance and driving time in proportion, on any road. */
  lemma {:induction false} AdvanceAccounts(roads: Roads, t: Tick, remaining: real, now: real)
    requires CachePriced(t.seg) && Accounted(t.v)
    ensures CachePriced(Advance(roads, t, remaining, now).seg) && Accounted(Advance(roads, t, remaining, now).v)
    decreases Arrivals(t.v)
  {
    if remaining > 0.0 && Target(t.v).Some? {
      if remaining >= Left(CurrentSegment(roads, t.v, t.seg, Target(t.v).value)) {
        var r, left := AccountsToArrival(roads, t, remaining, now);
        AdvanceAccounts(roads, r, left, now);
      } else {
        var r := AccountsOnTheRoad(roads, t, remaining, now);
      }
    }
  }

  // ---------------------------------------------------------------- roads that lead straight to the target

  ghost predicate OnRoad(roads: Roads, seg: Segment) {
    exists start :: SegmentFrom(roads.d, roads.path, start, seg)
  }

  /** Roads on which the planned travel time to the target runs down second by second. */
  ghost predicate Homing(roads: Roads) {
    match roads
    case Roads(d, _, at) =>
      && Metric(d)
      && forall seg: Segment {:trigger at(seg)} ::
           OnRoad(roads, seg) && seg.straightTT > 0.0 && 0.0 <= seg.elapsed <= seg.straightTT ==>
             TravelTime(d, at(seg), seg.to) == seg.straightTT - seg.elapsed
  }

  /** The cached piece of road and the vehicle's position agree. */
  ghost predicate CacheOk(roads: Roads, v: VehicleState, seg: Option<Segment>) {
    seg.Some? ==>
      && OnRoad(roads, seg.value)
      && 0.0 <= seg.value.elapsed < seg.value.straightTT
      && v.location == roads.at(seg.value)
  }

  /** The piece being driven leads to the target, and the time left on it is the travel time. */
  lemma RoadAhead(roads: Roads, v: VehicleState, seg: Option<Segment>, target: Point)
    requires Homing(roads) && CacheOk(roads, v, seg)
    ensures var s := CurrentSegment(roads, v, seg, target);
            && s.to == target && OnRoad(roads, s)
            && Left(s) == TravelTime(roads.d, v.location, target)
            && (s.straightTT > 0.0 ==> 0.0 <= s.elapsed < s.straightTT)
  {
    var s := CurrentSegment(roads, v, seg, target);
    if !(seg.Some? && seg.value.to == target) {
      assert SegmentFrom(roads.d, roads.path, v.location, s);
      assert roads.d(v.location, target) >= 0.0;
    }
  }

  /** The piece of road `used` seconds later, and what is left to drive then. */
  lemma FurtherAlong(roads: Roads, s: Segment, used: real) returns (on: Segment)
    requires Homing(roads) && OnRoad(roads, s) && 0.0 <= s.elapsed && 0.0 < used && s.elapsed + used < s.straightTT
    ensures on == s.(elapsed := s.elapsed + used) && OnRoad(roads, on) && 0.0 <= on.elapsed < on.straightTT
    ensures TravelTime(roads.d, roads.at(on), on.to) == s.straightTT - s.elapsed - used
  {
    on := s.(elapsed := s.elapsed + used);
    var start :| SegmentFrom(roads.d, roads.path, start, s);
    assert SegmentFrom(roads.d, roads.path, start, on);
  }

  /** Driving without arriving: the vehicle is `used` seconds closer. */
  lemma DriveCloser(roads: Roads, v: VehicleState, seg: Option<Segment>, target: Point, used: real)
    requires Homing(roads) && CacheOk(roads, v, seg) && 0.0 < used < TravelTime(roads.d, v.location, target)
    ensures var s := CurrentSegment(roads, v, seg, target);
            && CacheOk(roads, Drive(roads, v, s, used), Some(s.(elapsed := s.elapsed + used)))
            && TravelTime(roads.d, Drive(roads, v, s, used).location, target)
               == TravelTime(roads.d, v.location, target) - used
  {
    var s := CurrentSegment(roads, v, seg, target);
    RoadAhead(roads, v, seg, target);
    var on := FurtherAlong(roads, s, used);
    assert Drive(roads, v, s, used).location == roads.at(on);
  }

  // ---------------------------------------------------------------- straight roads

  ghost function StraightRoads(d: Distance): Roads {
    Roads(d, Straight, RoadPosition)
  }

  lemma StraightSegment(d: Distance, start: Point, seg: Segment)
    requires SegmentFrom(d, Straight, start, seg)
    ensures seg.poly == [start, seg.to] && seg.cum == [0.0, d(start, seg.to)]
    ensures seg.totalRoad == d(start, seg.to) && seg.straightTT == TravelTime(d, start, seg.to)
  {
    assert ArcLength(d, [start, seg.to], 1) == 0.0 + d(start, seg.to);
  }

  lemma LerpEnds(a: Point, b: Point)
    ensures Lerp(a, b, 0.0) == a && Lerp(a, b, 1.0) == b
  {
  }

  lemma ShareOf(f: real, y: real, x: real)
    requires 0.0 < f < 1.0 && 0.0 < y && x == f * y
    ensures 0.0 < x < y && x / y == f
  {
    Positive(f, y);
    PartIsLess(f, y, x);
    Ratio(x, y);
    SameFactor(x / y, f, y);
  }

  lemma PartIsLess(f: real, y: real, x: real)
    requires 0.0 < f < 1.0 && 0.0 < y && x == f * y
    ensures x < y
  {
    Positive(1.0 - f, y);
    assert (1.0 - f) * y == y - x;
  }

  lemma ProductGrows(p: real, q: real, y: real)
    requires p < q && 0.0 < y
    ensures p * y < q * y
  {
    Positive(q - p, y);
    assert (q - p) * y == q * y - p * y;
  }

  lemma SameFactor(p: real, q: real, y: real)
    requires 0.0 < y && p * y == q * y
    ensures p == q
  {
    if p < q {
      ProductGrows(p, q, y);
    } else if q < p {
      ProductGrows(q, p, y);
    }
  }

  /** On a straight piece of road, arc length is distance from the start. */
  lemma StraightAt(seg: Segment, start: Point, f: real, x: real)
    requires seg.poly == [start, seg.to] && seg.cum == [0.0, seg.totalRoad] && 0.0 < f < 1.0
    requires 0.0 <= x < seg.totalRoad && x / seg.totalRoad == f
    ensures InterpAt(seg, f, x) == Lerp(start, seg.to, f)
  {
    assert PieceIndex(seg.cum, x) == 0;
  }

  /** With `StraightRouter` interpolation is the straight line. */
  lemma StraightInterp(d: Distance, start: Point, seg: Segment, f: real)
    requires Metric(d) && SegmentFrom(d, Straight, start, seg) && seg.straightTT > 0.0 && 0.0 <= f <= 1.0
    ensures Interp(seg, f) == Lerp(start, seg.to, f)
  {
    StraightSegment(d, start, seg);
    StraightInterpAt(start, seg, f, Times(f, seg.totalRoad));
  }

  lemma StraightInterpAt(start: Point, seg: Segment, f: real, x: real)
    requires seg.poly == [start, seg.to] && seg.cum == [0.0, seg.totalRoad] && seg.totalRoad > 0.0
    requires 0.0 <= f <= 1.0 && x == f * seg.totalRoad
    ensures InterpAt(seg, f, x) == Lerp(start, seg.to, f)
  {
    if 0.0 < f < 1.0 {
      ShareOf(f, seg.totalRoad, x);
      StraightAt(seg, start, f, x);
    } else {
      LerpEnds(start, seg.to);
    }
  }

  lemma PartOfTrip(whole: real, done: real)
    requires whole > 0.0 && 0.0 <= done <= whole
    ensures 0.0 <= done / whole <= 1.0
    ensures (1.0 - done / whole) * whole == whole - done
  {
  }

  /** `done` seconds into a straight trip, the rest of the trip remains. */
  lemma TimeLeft(d: Distance, start: Point, target: Point, done: real)
    requires Metric(d)
    requires var tt := TravelTime(d, start, target); tt > 0.0 && 0.0 <= done <= tt
    ensures TravelTime(d, Lerp(start, target, done / TravelTime(d, start, target)), target)
         == TravelTime(d, start, target) - done
  {
    var tt := TravelTime(d, start, target);
    PartOfTrip(tt, done);
    assert d(Lerp(start, target, done / tt), target) == (1.0 - done / tt) * d(start, target);
    assert (1.0 - done / tt) * d(start, target) == (1.0 - done / tt) * tt / 150.0;
  }

  lemma StraightPosition(d: Distance, start: Point, seg: Segment)
    requires Metric(d) && SegmentFrom(d, Straight, start, seg)
    requires seg.straightTT > 0.0 && 0.0 <= seg.elapsed <= seg.straightTT
    ensures TravelTime(d, RoadPosition(seg), seg.to) == seg.straightTT - seg.elapsed
  {
    StraightSegment(d, start, seg);
    Ratio(seg.elapsed, seg.straightTT);
    StraightInterp(d, start, seg, seg.elapsed / seg.straightTT);
    TimeLeft(d, start, seg.to, seg.elapsed);
  }

  /** With `StraightRouter` the vehicle is always as far away as the engine plans. */
  lemma StraightIsHoming(d: Distance)
    requires Metric(d)
    ensures Homing(StraightRoads(d))
  {
    var roads := StraightRoads(d);
    forall seg: Segment | OnRoad(roads, seg) && seg.straightTT > 0.0 && 0.0 <= seg.elapsed <= seg.straightTT
      ensures TravelTime(d, roads.at(seg), seg.to) == seg.straightTT - seg.elapsed
    {
      var start :| SegmentFrom(d, Straight, start, seg);
      StraightPosition(d, start, seg);
    }
  }
}
