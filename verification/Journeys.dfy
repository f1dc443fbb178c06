/** What the world does with a plan: which stops a tick serves, how long the vehicle drives in it, and where it is then.
    All of it follows from the travel times the engine plans with, whatever the road looks like. */
module Journeys {
  import opened Geo
  import opened Models
  import opened Schedule
  import opened Motion
  import opened Promises
  import opened Riding
  import opened Store
  import opened Service
  import Insertion

  // ---------------------------------------------------------------- the way ahead

  /** Where the vehicle is going: to its stops, and then to the place it was to wait at, if there is one. */
  function Waypoints(v: VehicleState): (w: seq<Point>)
    ensures |w| == Arrivals(v)
  {
    seq(|v.route|, k requires 0 <= k < |v.route| => v.route[k].location)
    + if v.repositionTarget.Some? then [v.repositionTarget.value] else []
  }

  /** Seconds until the vehicle has reached the first `k` of these: what is left of the piece of road it is on, and
      then the planned travel times. */
  function Reach(roads: Roads, t: Tick, k: nat): real
    requires k <= Arrivals(t.v)
  {
    var w := Waypoints(t.v);
    if k == 0 then 0.0
    else if k == 1 then Left(CurrentSegment(roads, t.v, t.seg, w[0]))
    else Reach(roads, t, k - 1) + TravelTime(roads.d, w[k - 2], w[k - 1])
  }

  /** The cached piece of road has not been driven to its end. */
  ghost predicate CacheLive(seg: Option<Segment>) {
    seg.Some? ==> 0.0 <= seg.value.elapsed < seg.value.straightTT
  }

  lemma {:induction false} StampKeeps(route: seq<Stop>, id: int, now: real)
    ensures SameButBoarding(StampBoarding(route, id, now), route)
  {
    if route != [] && !(route[0].requestId == id && route[0].stopType.Dropoff?) {
      StampKeeps(route[1..], id, now);
    }
  }

  /** An arrival takes one waypoint away, and changes nothing about the others. */
  lemma ArrivalPops(t: Tick, target: Point, now: real)
    requires Target(t.v) == Some(target)
    ensures var r := Arrive(t, target, now);
            && Arrivals(r.v) == Arrivals(t.v) - 1
            && Waypoints(r.v) == Waypoints(t.v)[1..] && Waypoints(t.v)[0] == target == r.v.location
            && r.v.busyTime == t.v.busyTime && r.seg.None?
            && r.v.route == (if t.v.route == [] then [] else r.v.route)
            && (t.v.route != [] ==> SameButBoarding(r.v.route, t.v.route[1..]))
  {
    var r := Arrive(t, target, now);
    if t.v.route != [] {
      var id := t.v.route[0].requestId;
      if id in t.requests {
        StampKeeps(t.v.route, t.requests[id].id, now);
      }
      assert SameButBoarding(r.v.route, t.v.route[1..]);
      FirstStopGone(t.v, r.v);
    }
  }

  lemma FirstStopGone(a: VehicleState, b: VehicleState)
    requires a.route != [] && SameButBoarding(b.route, a.route[1..]) && b.repositionTarget == a.repositionTarget
    ensures Arrivals(b) == Arrivals(a) - 1 && Waypoints(b) == Waypoints(a)[1..] && Waypoints(a)[0] == a.route[0].location
  {
    forall k | 0 <= k < |b.route| ensures Waypoints(b)[k] == Waypoints(a)[k + 1] {
      assert b.route[k] == a.route[1..][k].(boardedAt := b.route[k].boardedAt);
    }
  }

  /** The first target is the first waypoint. */
  lemma FirstWaypoint(v: VehicleState)
    ensures Target(v).Some? <==> Arrivals(v) > 0
    ensures Target(v).Some? ==> Target(v).value == Waypoints(v)[0]
  {
  }

  /** After an arrival everything ahead is as many seconds closer as the drive has taken. */
  lemma {:induction false} ReachAfterArrival(roads: Roads, t: Tick, r: Tick, k: nat)
    requires Metric(roads.d) && Arrivals(t.v) == Arrivals(r.v) + 1 && k <= Arrivals(r.v)
    requires Waypoints(r.v) == Waypoints(t.v)[1..] && r.v.location == Waypoints(t.v)[0] && r.seg.None?
    ensures Reach(roads, r, k) == Reach(roads, t, k + 1) - Reach(roads, t, 1)
  {
    if k == 1 {
      assert Waypoints(r.v)[0] == Waypoints(t.v)[1];
      assert roads.d(Waypoints(t.v)[0], Waypoints(t.v)[1]) >= 0.0;
    } else if k > 1 {
      ReachAfterArrival(roads, t, r, k - 1);
      assert Waypoints(r.v)[k - 2] == Waypoints(t.v)[k - 1] && Waypoints(r.v)[k - 1] == Waypoints(t.v)[k];
    }
  }

  /** Later waypoints are not reached earlier. */
  lemma {:induction false} ReachGrows(roads: Roads, t: Tick, j: nat, k: nat)
    requires Metric(roads.d) && 0 < j <= k <= Arrivals(t.v)
    ensures Reach(roads, t, j) <= Reach(roads, t, k)
  {
    if j < k {
      ReachGrows(roads, t, j, k - 1);
      assert roads.d(Waypoints(t.v)[k - 2], Waypoints(t.v)[k - 1]) >= 0.0;
    }
  }

  // ---------------------------------------------------------------- one tick

  function Less(a: real, b: real): real {
    if a < b then a else b
  }

  /** Waypoint `k` is reached within `r` seconds, and before they are over unless the drive to it takes some. */
  predicate Reached(roads: Roads, t: Tick, r: real, k: nat)
    requires k < Arrivals(t.v)
  {
    Reach(roads, t, k) < r && Reach(roads, t, k + 1) <= r
  }

  /** How many waypoints have been reached between `t` and `e`. */
  function Passed(t: Tick, e: Tick): int {
    Arrivals(t.v) - Arrivals(e.v)
  }

  /** Waypoints have been taken away from the front: stops first, and the place to wait at last. */
  predicate PassesInOrder(t: Tick, e: Tick) {
    var n := Passed(t, e);
    && n >= 0 && Waypoints(e.v) == Waypoints(t.v)[n..]
    && |e.v.route| == (if n <= |t.v.route| then |t.v.route| - n else 0)
    && e.v.repositionTarget == (if n <= |t.v.route| then t.v.repositionTarget else None)
  }

  /** They are exactly those within reach. */
  ghost predicate PassesInTime(roads: Roads, t: Tick, r: real, e: Tick) {
    forall k :: 0 <= k < Arrivals(t.v) ==> (k < Passed(t, e) <==> Reached(roads, t, r, k))
  }

  /** The others are `r` seconds closer. */
  ghost predicate ComesCloser(roads: Roads, t: Tick, r: real, e: Tick)
    requires Passed(t, e) >= 0
  {
    forall k :: 0 < k <= Arrivals(e.v) ==> Reach(roads, e, k) == Reach(roads, t, Passed(t, e) + k) - r
  }

  /** The vehicle has driven all the time, or as long as there was somewhere to go. */
  predicate DrivesOn(roads: Roads, t: Tick, r: real, e: Tick) {
    e.v.busyTime == t.v.busyTime + Less(r, Reach(roads, t, Arrivals(t.v)))
  }

  /** If there is nowhere left to go, it is where that led. */
  predicate EndsThere(t: Tick, e: Tick) {
    Arrivals(e.v) == 0 ==>
      e.v.location == if Arrivals(t.v) > 0 then Waypoints(t.v)[Arrivals(t.v) - 1] else t.v.location
  }

  /** What becomes of `t` in `r` seconds. */
  ghost predicate DrivenFor(roads: Roads, t: Tick, r: real, e: Tick) {
    match e
    case Tick(_, seg, _) =>
      && PassesInOrder(t, e) && EndsThere(t, e) && CacheLive(seg)
      && PassesInTime(roads, t, r, e) && ComesCloser(roads, t, r, e) && DrivesOn(roads, t, r, e)
  }

  lemma FirstIsAhead(roads: Roads, t: Tick)
    requires Metric(roads.d) && CacheLive(t.seg)
    ensures Arrivals(t.v) > 0 ==> Reach(roads, t, 1) >= 0.0
  {
    if Arrivals(t.v) > 0 {
      assert roads.d(t.v.location, Waypoints(t.v)[0]) >= 0.0;
    }
  }

  /** Everything ahead is as far away as the first waypoint, at least. */
  lemma NoneNearer(roads: Roads, t: Tick, k: nat)
    requires Metric(roads.d) && CacheLive(t.seg) && 0 < k <= Arrivals(t.v)
    ensures 0.0 <= Reach(roads, t, 1) <= Reach(roads, t, k)
  {
    FirstIsAhead(roads, t);
    ReachGrows(roads, t, 1, k);
  }

  /** If the first waypoint is `less` seconds closer, so are the others. */
  lemma {:induction false} SameReach(roads: Roads, t: Tick, e: Tick, less: real, k: nat)
    requires Waypoints(e.v) == Waypoints(t.v) && 0 < k <= Arrivals(t.v) == Arrivals(e.v)
    requires Reach(roads, e, 1) == Reach(roads, t, 1) - less
    ensures Reach(roads, e, k) == Reach(roads, t, k) - less
  {
    if k > 1 {
      SameReach(roads, t, e, less, k - 1);
    }
  }

  /** Nothing is reached if the first waypoint is not. */
  lemma NoneReached(roads: Roads, t: Tick, r: real, e: Tick)
    requires Metric(roads.d) && CacheLive(t.seg) && 0.0 <= r && (Arrivals(t.v) > 0 ==> r == 0.0 || r < Reach(roads, t, 1))
    requires Passed(t, e) == 0
    ensures PassesInTime(roads, t, r, e)
  {
    forall k | 0 <= k < Arrivals(t.v) ensures !Reached(roads, t, r, k) {
      NoneNearer(roads, t, k + 1);
      if k > 0 {
        NoneNearer(roads, t, k);
      }
    }
  }

  lemma AllCloser(roads: Roads, t: Tick, r: real, e: Tick)
    requires Waypoints(e.v) == Waypoints(t.v) && Arrivals(e.v) == Arrivals(t.v)
    requires Arrivals(t.v) > 0 ==> Reach(roads, e, 1) == Reach(roads, t, 1) - r
    ensures ComesCloser(roads, t, r, e)
  {
    forall k | 0 < k <= Arrivals(e.v) ensures Reach(roads, e, k) == Reach(roads, t, k) - r {
      SameReach(roads, t, e, r, k);
    }
  }

  /** Nothing to do. */
  lemma StandsStill(roads: Roads, t: Tick, r: real, e: Tick)
    requires Metric(roads.d) && CacheLive(t.seg) && 0.0 <= r && (r == 0.0 || Arrivals(t.v) == 0)
    requires e.v == t.v && (e.seg == t.seg || (e.seg.None? && Arrivals(t.v) == 0))
    ensures DrivenFor(roads, t, r, e)
  {
    NoneReached(roads, t, r, e);
    AllCloser(roads, t, r, e);
    if Arrivals(t.v) > 0 {
      NoneNearer(roads, t, Arrivals(t.v));
    }
  }

  /** Driving for `r` seconds without arriving. */
  lemma OnTheRoad(roads: Roads, t: Tick, r: real, e: Tick)
    requires Metric(roads.d) && CacheLive(t.seg) && 0.0 < r && Arrivals(t.v) > 0 && r < Reach(roads, t, 1)
    requires var seg := CurrentSegment(roads, t.v, t.seg, Waypoints(t.v)[0]);
             e.v == Drive(roads, t.v, seg, r) && e.seg == Some(seg.(elapsed := seg.elapsed + r))
    ensures DrivenFor(roads, t, r, e)
  {
    NoneReached(roads, t, r, e);
    AllCloser(roads, t, r, e);
    NoneNearer(roads, t, Arrivals(t.v));
  }

  /** `mid` is `t` at its next waypoint. */
  predicate AtNext(roads: Roads, t: Tick, mid: Tick) {
    match mid
    case Tick(v, seg, _) =>
      && Arrivals(t.v) > 0 && Passed(t, mid) == 1 && PassesInOrder(t, mid)
      && v.location == Waypoints(t.v)[0] && seg.None? && v.busyTime == t.v.busyTime + Reach(roads, t, 1)
  }

  /** What was ahead then is ahead now, less the drive. */
  ghost predicate Shifted(roads: Roads, t: Tick, mid: Tick) {
    && Arrivals(t.v) == Arrivals(mid.v) + 1
    && forall k :: 0 <= k <= Arrivals(mid.v) ==> Reach(roads, mid, k) == Reach(roads, t, k + 1) - Reach(roads, t, 1)
  }

  lemma NextShifts(roads: Roads, t: Tick, mid: Tick)
    requires Metric(roads.d) && AtNext(roads, t, mid)
    ensures Shifted(roads, t, mid)
  {
    forall k | 0 <= k <= Arrivals(mid.v)
      ensures Reach(roads, mid, k) == Reach(roads, t, k + 1) - Reach(roads, t, 1)
    {
      ReachAfterArrival(roads, t, mid, k);
    }
  }

  lemma OrderChains(t: Tick, mid: Tick, e: Tick)
    requires PassesInOrder(t, mid) && PassesInOrder(mid, e)
    ensures PassesInOrder(t, e)
  {
  }

  lemma InTimeFromNext(roads: Roads, t: Tick, mid: Tick, r: real, left: real, e: Tick)
    requires Shifted(roads, t, mid) && 0.0 < r && 0.0 <= left == r - Reach(roads, t, 1)
    requires Passed(mid, e) >= 0 && PassesInTime(roads, mid, left, e)
    ensures PassesInTime(roads, t, r, e)
  {
    forall k | 0 <= k < Arrivals(t.v) ensures k < Passed(t, e) <==> Reached(roads, t, r, k) {
      if k > 0 {
        assert Reach(roads, mid, k) == Reach(roads, t, k + 1) - Reach(roads, t, 1);
        assert Reach(roads, mid, k - 1) == Reach(roads, t, k - 1 + 1) - Reach(roads, t, 1);
        assert k - 1 < Passed(mid, e) <==> Reached(roads, mid, left, k - 1);
      }
    }
  }

  lemma CloserFromNext(roads: Roads, t: Tick, mid: Tick, r: real, left: real, e: Tick)
    requires Shifted(roads, t, mid) && left == r - Reach(roads, t, 1)
    requires Passed(mid, e) >= 0 && ComesCloser(roads, mid, left, e)
    ensures Passed(t, e) >= 0 && ComesCloser(roads, t, r, e)
  {
    var m := Passed(mid, e);
    forall k | 0 < k <= Arrivals(e.v) ensures Reach(roads, e, k) == Reach(roads, t, m + 1 + k) - r {
      assert Reach(roads, e, k) == Reach(roads, mid, m + k) - left;
      assert Reach(roads, mid, m + k) == Reach(roads, t, m + k + 1) - Reach(roads, t, 1);
    }
  }

  lemma BusyFromNext(roads: Roads, t: Tick, mid: Tick, r: real, left: real, e: Tick)
    requires Shifted(roads, t, mid) && left == r - Reach(roads, t, 1)
    requires mid.v.busyTime == t.v.busyTime + Reach(roads, t, 1) && DrivesOn(roads, mid, left, e)
    ensures DrivesOn(roads, t, r, e)
  {
    var n := Arrivals(mid.v);
    assert Reach(roads, mid, n) == Reach(roads, t, n + 1) - Reach(roads, t, 1);
  }

  lemma ThereFromNext(roads: Roads, t: Tick, mid: Tick, e: Tick)
    requires AtNext(roads, t, mid) && EndsThere(mid, e)
    ensures EndsThere(t, e)
  {
  }

  /** An arrival, and then what happens in the rest of the time. */
  lemma ThenOn(roads: Roads, t: Tick, mid: Tick, r: real, left: real, e: Tick)
    requires Metric(roads.d) && AtNext(roads, t, mid) && 0.0 < r && 0.0 <= left == r - Reach(roads, t, 1)
    requires DrivenFor(roads, mid, left, e)
    ensures DrivenFor(roads, t, r, e)
  {
    NextShifts(roads, t, mid);
    OrderChains(t, mid, e);
    InTimeFromNext(roads, t, mid, r, left, e);
    CloserFromNext(roads, t, mid, r, left, e);
    BusyFromNext(roads, t, mid, r, left, e);
    ThereFromNext(roads, t, mid, e);
  }

  /** The tick up to the next arrival. */
  lemma ToTheNext(roads: Roads, t: Tick, r: real, now: real) returns (mid: Tick, left: real)
    requires CacheLive(t.seg) && Arrivals(t.v) > 0 && 0.0 < r && Reach(roads, t, 1) <= r
    ensures 0.0 <= left == r - Reach(roads, t, 1) && CacheLive(mid.seg) && Arrivals(mid.v) < Arrivals(t.v)
    ensures AtNext(roads, t, mid) && GoesOn(roads, t, r, mid, left, now)
  {
    FirstWaypoint(t.v);
    var target := Target(t.v).value;
    var seg := CurrentSegment(roads, t.v, t.seg, target);
    var there := t.(v := Drive(roads, t.v, seg, Left(seg)));
    ArrivalPops(there, target, now);
    mid, left := Arrive(there, target, now), r - Left(seg);
  }

  /** With `r` seconds to go `t` ends where `mid` ends with `left`. */
  ghost predicate GoesOn(roads: Roads, t: Tick, r: real, mid: Tick, left: real, now: real) {
    match mid
    case Tick(v, seg, requests) => Advance(roads, t, r, now) == Advance(roads, Tick(v, seg, requests), left, now)
  }

  lemma EndsTogether(roads: Roads, t: Tick, r: real, mid: Tick, left: real, now: real, e: Tick)
    requires GoesOn(roads, t, r, mid, left, now) && EndsAt(roads, mid, left, now, e)
    ensures EndsAt(roads, t, r, now, e)
  {
  }

  /** The rest of a tick after an arrival, and the tick. */
  lemma WholeFromRest(roads: Roads, t: Tick, r: real, mid: Tick, left: real, now: real, e: Tick)
    requires Metric(roads.d) && AtNext(roads, t, mid) && 0.0 < r && 0.0 <= left == r - Reach(roads, t, 1)
    requires GoesOn(roads, t, r, mid, left, now)
    requires EndsAt(roads, mid, left, now, e) && DrivenFor(roads, mid, left, e)
    ensures EndsAt(roads, t, r, now, e) && DrivenFor(roads, t, r, e)
  {
    EndsTogether(roads, t, r, mid, left, now, e);
    ThenOn(roads, t, mid, r, left, e);
  }

  /** The tick that ends before the next arrival. */
  lemma NotYetThere(roads: Roads, t: Tick, r: real, now: real) returns (e: Tick)
    requires Metric(roads.d) && CacheLive(t.seg) && Arrivals(t.v) > 0 && 0.0 < r < Reach(roads, t, 1)
    ensures EndsAt(roads, t, r, now, e) && DrivenFor(roads, t, r, e)
  {
    FirstWaypoint(t.v);
    e := Advance(roads, t, r, now);
    OnTheRoad(roads, t, r, e);
  }

  lemma NothingToDo(roads: Roads, t: Tick, r: real, now: real) returns (e: Tick)
    requires Metric(roads.d) && CacheLive(t.seg) && 0.0 <= r && (r == 0.0 || Arrivals(t.v) == 0)
    ensures EndsAt(roads, t, r, now, e) && DrivenFor(roads, t, r, e)
  {
    FirstWaypoint(t.v);
    e := Advance(roads, t, r, now);
    StandsStill(roads, t, r, e);
  }

  /** A tick serves exactly the stops that the planned times put within it, and drives exactly as long as there is
      somewhere to go, on any roads. */
  lemma {:induction false} TickFollowsThePlan(roads: Roads, t: Tick, r: real, now: real) returns (e: Tick)
    requires Metric(roads.d) && CacheLive(t.seg) && 0.0 <= r
    ensures EndsAt(roads, t, r, now, e) && DrivenFor(roads, t, r, e)
    decreases Arrivals(t.v)
  {
    if r == 0.0 || Arrivals(t.v) == 0 {
      e := NothingToDo(roads, t, r, now);
    } else if r < Reach(roads, t, 1) {
      e := NotYetThere(roads, t, r, now);
    } else {
      var mid, left := ToTheNext(roads, t, r, now);
      e := TickFollowsThePlan(roads, mid, left, now);
      WholeFromRest(roads, t, r, mid, left, now, e);
    }
  }

  lemma NothingNearer(roads: Roads, t: Tick, r: real, e: Tick)
    requires Metric(roads.d) && Passed(t, e) >= 0 && ComesCloser(roads, t, r, e) && CacheLive(e.seg)
    ensures Arrivals(e.v) > 0 ==> r <= Reach(roads, t, Arrivals(t.v))
  {
    if Arrivals(e.v) > 0 {
      NoneNearer(roads, e, Arrivals(e.v));
      assert Passed(t, e) + Arrivals(e.v) == Arrivals(t.v);
    }
  }

  /** What is ahead takes some time. */
  lemma WholeWay(roads: Roads, t: Tick) returns (whole: real)
    requires Metric(roads.d) && CacheLive(t.seg)
    ensures whole == Reach(roads, t, Arrivals(t.v)) && 0.0 <= whole
  {
    whole := Reach(roads, t, Arrivals(t.v));
    if Arrivals(t.v) > 0 {
      NoneNearer(roads, t, Arrivals(t.v));
    }
  }

  lemma WayLeft(roads: Roads, t: Tick, r: real, e: Tick, whole: real)
    requires Metric(roads.d) && DrivenFor(roads, t, r, e) && whole == Reach(roads, t, Arrivals(t.v))
    ensures e.v.busyTime == t.v.busyTime + Less(r, whole)
    ensures Arrivals(e.v) > 0 ==> r <= whole
  {
    NothingNearer(roads, t, r, e);
  }

  /** The seconds driven in a tick are between none and all of it, and all of it if there is still somewhere to go. */
  lemma BusyAhead(roads: Roads, t: Tick, r: real, e: Tick)
    requires Metric(roads.d) && CacheLive(t.seg) && 0.0 <= r && DrivenFor(roads, t, r, e)
    ensures 0.0 <= e.v.busyTime - t.v.busyTime <= r
    ensures e.v.route != [] || e.v.repositionTarget.Some? ==> e.v.busyTime == t.v.busyTime + r
  {
    var whole := WholeWay(roads, t);
    WayLeft(roads, t, r, e, whole);
    LessIs(r, whole);
    SomewhereToGo(e.v);
  }

  lemma LessIs(r: real, whole: real)
    requires 0.0 <= r && 0.0 <= whole
    ensures 0.0 <= Less(r, whole) <= r && (r <= whole ==> Less(r, whole) == r)
  {
  }

  lemma SomewhereToGo(v: VehicleState)
    ensures v.route != [] || v.repositionTarget.Some? <==> Arrivals(v) > 0
  {
  }

  // ---------------------------------------------------------------- on roads that lead straight to the target

  /** On such roads the seconds to a stop are those the engine plans with, wherever the vehicle is. */
  lemma {:induction false} ReachIsClock(roads: Roads, t: Tick, k: nat)
    requires Homing(roads) && CacheOk(roads, t.v, t.seg) && k <= |t.v.route|
    ensures Reach(roads, t, k) == Clock(roads.d, t.v.location, 0.0, t.v.route, k)
  {
    if k == 1 {
      RoadAhead(roads, t.v, t.seg, t.v.route[0].location);
      assert Clock(roads.d, t.v.location, 0.0, t.v.route, 0) == 0.0;
    } else if k > 1 {
      ReachIsClock(roads, t, k - 1);
    }
  }

  lemma CacheOkIsLive(roads: Roads, t: Tick)
    requires CacheOk(roads, t.v, t.seg)
    ensures CacheLive(t.seg)
  {
  }

  /** Stop `k` is planned to be reached within `r` seconds, and the stop before it earlier than that. */
  predicate PlannedWithin(d: Distance, loc: Point, route: seq<Stop>, r: real, k: nat)
    requires k < |route|
  {
    Clock(d, loc, 0.0, route, k) < r && Clock(d, loc, 0.0, route, k + 1) <= r
  }

  /** A tick of `r` seconds serves exactly the stops that the engine plans to reach within `r` seconds, leaves the others
      in place and `r` seconds closer, and adds `r` seconds of driving, or the driving time of the route if the vehicle
      has nowhere else to go. */
  lemma StopsAreServedAsPlanned(roads: Roads, t: Tick, r: real, now: real) returns (e: Tick, n: nat)
    requires Homing(roads) && CacheOk(roads, t.v, t.seg) && 0.0 <= r
    ensures EndsAt(roads, t, r, now, e)
    ensures n <= |t.v.route| && |e.v.route| == |t.v.route| - n
    ensures forall k :: 0 <= k < |t.v.route| ==> (k < n <==> PlannedWithin(roads.d, t.v.location, t.v.route, r, k))
    ensures n < |t.v.route| ==> e.v.busyTime == t.v.busyTime + r
    ensures t.v.repositionTarget.None? ==>
              e.v.busyTime == t.v.busyTime + Less(r, Clock(roads.d, t.v.location, 0.0, t.v.route, |t.v.route|))
    ensures 0 < n == |t.v.route| && t.v.repositionTarget.None? ==> e.v.location == t.v.route[n - 1].location
  {
    CacheOkIsLive(roads, t);
    e := TickFollowsThePlan(roads, t, r, now);
    n := |t.v.route| - |e.v.route|;
    PlanIsReach(roads, t, r, e);
    BusyAhead(roads, t, r, e);
    if t.v.repositionTarget.None? {
      BusyIsClock(roads, t, r, e);
    }
  }

  lemma PlanIsReach(roads: Roads, t: Tick, r: real, e: Tick)
    requires Homing(roads) && CacheOk(roads, t.v, t.seg) && PassesInOrder(t, e) && PassesInTime(roads, t, r, e)
    ensures forall k :: 0 <= k < |t.v.route| ==>
              (k < |t.v.route| - |e.v.route| <==> PlannedWithin(roads.d, t.v.location, t.v.route, r, k))
  {
    forall k | 0 <= k < |t.v.route|
      ensures k < |t.v.route| - |e.v.route| <==> PlannedWithin(roads.d, t.v.location, t.v.route, r, k)
    {
      ReachIsClock(roads, t, k);
      ReachIsClock(roads, t, k + 1);
      assert k < Passed(t, e) <==> Reached(roads, t, r, k);
    }
  }

  lemma BusyIsClock(roads: Roads, t: Tick, r: real, e: Tick)
    requires Homing(roads) && CacheOk(roads, t.v, t.seg) && DrivesOn(roads, t, r, e) && t.v.repositionTarget.None?
    ensures e.v.busyTime == t.v.busyTime + Less(r, Clock(roads.d, t.v.location, 0.0, t.v.route, |t.v.route|))
  {
    ReachIsClock(roads, t, |t.v.route|);
  }

  /** A vehicle without stops that is to wait elsewhere gets there in the travel time, and then has nowhere to go. */
  lemma RepositionsAsPlanned(roads: Roads, t: Tick, p: Point, r: real, now: real) returns (e: Tick)
    requires Homing(roads) && CacheOk(roads, t.v, t.seg) && 0.0 < r
    requires t.v.route == [] && t.v.repositionTarget == Some(p)
    ensures EndsAt(roads, t, r, now, e) && e.v.route == []
    ensures var time := TravelTime(roads.d, t.v.location, p);
            if time <= r then e.v.location == p && e.v.repositionTarget.None? && e.v.busyTime == t.v.busyTime + time
            else e.v.repositionTarget == Some(p) && e.v.busyTime == t.v.busyTime + r
  {
    CacheOkIsLive(roads, t);
    e := TickFollowsThePlan(roads, t, r, now);
    RoadAhead(roads, t.v, t.seg, p);
    OnlyPlaceToGo(roads, t, p, r, e);
  }

  lemma OnlyPlaceToGo(roads: Roads, t: Tick, p: Point, r: real, e: Tick)
    requires t.v.route == [] && t.v.repositionTarget == Some(p) && 0.0 < r
    requires PassesInOrder(t, e) && PassesInTime(roads, t, r, e) && DrivesOn(roads, t, r, e) && EndsThere(t, e)
    requires Left(CurrentSegment(roads, t.v, t.seg, p)) == TravelTime(roads.d, t.v.location, p)
    ensures var time := TravelTime(roads.d, t.v.location, p);
            if time <= r then e.v.location == p && e.v.repositionTarget.None? && e.v.busyTime == t.v.busyTime + time
            else e.v.repositionTarget == Some(p) && e.v.busyTime == t.v.busyTime + r
  {
    assert Waypoints(t.v) == [p];
    assert 0 < Passed(t, e) <==> Reached(roads, t, r, 0);
  }

  // ---------------------------------------------------------------- what is noted down

  /** The times of request `id` are as before or now. */
  predicate NotedNow(a: RequestState, b: RequestState, now: real) {
    && (b.pickupTime == a.pickupTime || b.pickupTime == Some(now))
    && (b.dropoffTime == a.dropoffTime || b.dropoffTime == Some(now))
    && b == a.(status := b.status, pickupTime := b.pickupTime, dropoffTime := b.dropoffTime)
  }

  /** Stop `s` has been served now: its request has got its time. */
  predicate ServedNow(s: Stop, requests: map<int, RequestState>, now: real) {
    s.requestId in requests ==>
      if s.stopType.Pickup? then requests[s.requestId].pickupTime == Some(now)
      else requests[s.requestId].dropoffTime == Some(now)
  }

  /** From `t` to `e` the stops no longer on the route have been served now, and requests without such a stop are as
      they were. */
  ghost predicate Noted(t: Tick, e: Tick, now: real) {
    && |e.v.route| <= |t.v.route| && SameButBoarding(e.v.route, t.v.route[|t.v.route| - |e.v.route|..])
    && e.requests.Keys == t.requests.Keys
    && (forall k :: 0 <= k < |t.v.route| - |e.v.route| ==> ServedNow(t.v.route[k], e.requests, now))
    && (forall id :: id in t.requests ==> NotedNow(t.requests[id], e.requests[id], now))
    && (forall id :: id in t.requests && e.requests[id] != t.requests[id] ==> StoppedFor(t, e, id))
  }

  /** A stop of request `id` has been made. */
  ghost predicate StoppedFor(t: Tick, e: Tick, id: int) {
    exists k :: 0 <= k < |t.v.route| - |e.v.route| && k < |t.v.route| && t.v.route[k].requestId == id
  }

  lemma ArrivalNotes(t: Tick, target: Point, now: real)
    requires Target(t.v) == Some(target)
    ensures Noted(t, Arrive(t, target, now), now)
  {
    ArrivalPops(t, target, now);
  }

  lemma NotedChains(t: Tick, mid: Tick, e: Tick, now: real)
    requires Noted(t, mid, now) && Noted(mid, e, now)
    ensures Noted(t, e, now)
  {
    var n, m := |t.v.route| - |mid.v.route|, |mid.v.route| - |e.v.route|;
    forall k | 0 <= k < n + m ensures ServedNow(t.v.route[k], e.requests, now) {
      if k >= n {
        assert mid.v.route[k - n] == t.v.route[n..][k - n].(boardedAt := mid.v.route[k - n].boardedAt);
        assert ServedNow(mid.v.route[k - n], e.requests, now);
      } else {
        assert ServedNow(t.v.route[k], mid.requests, now);
      }
    }
    forall k | 0 <= k < |e.v.route| ensures e.v.route[k] == t.v.route[n + m..][k].(boardedAt := e.v.route[k].boardedAt) {
      assert e.v.route[k] == mid.v.route[m..][k].(boardedAt := e.v.route[k].boardedAt);
      assert mid.v.route[m + k] == t.v.route[n..][m + k].(boardedAt := mid.v.route[m + k].boardedAt);
    }
  }

  lemma NothingNoted(t: Tick, e: Tick, now: real)
    requires e.v.route == t.v.route && e.requests == t.requests
    ensures Noted(t, e, now)
  {
  }

  /** One arrival of a tick. */
  lemma NotedArrival(roads: Roads, t: Tick, seg: Segment, r: real, now: real) returns (mid: Tick, left: real)
    requires 0.0 < r && Target(t.v).Some? && seg == CurrentSegment(roads, t.v, t.seg, Target(t.v).value) && r >= Left(seg)
    ensures Noted(t, mid, now) && GoesOn(roads, t, r, mid, left, now) && Arrivals(mid.v) < Arrivals(t.v)
  {
    var target := Target(t.v).value;
    var there := t.(v := Drive(roads, t.v, seg, Left(seg)));
    ArrivalPops(there, target, now);
    ArrivalNotes(there, target, now);
    mid, left := Arrive(there, target, now), r - Left(seg);
    NothingNoted(t, there, now);
    NotedChains(t, there, mid, now);
  }

  /** The end of a tick on the road. */
  lemma NothingOnTheRoad(roads: Roads, t: Tick, seg: Segment, r: real, now: real) returns (e: Tick)
    requires 0.0 < r && Target(t.v).Some? && seg == CurrentSegment(roads, t.v, t.seg, Target(t.v).value) && r < Left(seg)
    ensures Noted(t, e, now) && EndsAt(roads, t, r, now, e)
  {
    e := Advance(roads, t, r, now);
    NothingNoted(t, e, now);
  }

  /** Every stop made in a tick gets the time of the tick, and no request gets any other. */
  lemma {:induction false} TickNotes(roads: Roads, t: Tick, r: real, now: real) returns (e: Tick)
    ensures EndsAt(roads, t, r, now, e) && Noted(t, e, now)
    decreases Arrivals(t.v), 1
  {
    if r <= 0.0 || Target(t.v).None? {
      e := Advance(roads, t, r, now);
      NothingNoted(t, e, now);
    } else {
      var seg := CurrentSegment(roads, t.v, t.seg, Target(t.v).value);
      if r < Left(seg) {
        e := NothingOnTheRoad(roads, t, seg, r, now);
      } else {
        e := NotedRest(roads, t, seg, r, now);
      }
    }
  }

  lemma {:induction false} NotedRest(roads: Roads, t: Tick, seg: Segment, r: real, now: real) returns (e: Tick)
    requires 0.0 < r && Target(t.v).Some? && seg == CurrentSegment(roads, t.v, t.seg, Target(t.v).value) && r >= Left(seg)
    ensures EndsAt(roads, t, r, now, e) && Noted(t, e, now)
    decreases Arrivals(t.v), 0
  {
    var mid, left := NotedArrival(roads, t, seg, r, now);
    e := TickNotes(roads, mid, left, now);
    NotedChains(t, mid, e, now);
    EndsTogether(roads, t, r, mid, left, now, e);
  }

  // ---------------------------------------------------------------- long ticks and short ones

  lemma SharesAdd(whole: real, tt: real, a: real, b: real)
    requires tt > 0.0
    ensures whole * (a / tt) + whole * (b / tt) == whole * ((a + b) / tt)
  {
    assert a / tt + b / tt == (a + b) / tt;
  }

  /** Driving on is driving further. */
  lemma DriveChains(roads: Roads, v: VehicleState, seg: Segment, a: real, b: real)
    ensures Drive(roads, Drive(roads, v, seg, a), seg.(elapsed := seg.elapsed + a), b) == Drive(roads, v, seg, a + b)
  {
    if seg.straightTT > 0.0 {
      SharesAdd(seg.straightDist, seg.straightTT, a, b);
      assert seg.elapsed + a + b == seg.elapsed + (a + b);
    }
  }

  /** `e` is `t` after `a` seconds on the road to its target, which it does not reach. */
  predicate OnTheWay(roads: Roads, t: Tick, seg: Segment, a: real, e: Tick) {
    && Target(t.v).Some? && seg == CurrentSegment(roads, t.v, t.seg, Target(t.v).value)
    && 0.0 < a < Left(seg)
    && e == t.(v := Drive(roads, t.v, seg, a), seg := Some(seg.(elapsed := seg.elapsed + a)))
  }

  /** It is still on the same piece of road, and has only the rest of it left. */
  lemma StillOnIt(roads: Roads, t: Tick, seg: Segment, a: real, e: Tick) returns (on: Segment)
    requires OnTheWay(roads, t, seg, a, e)
    ensures Target(e.v) == Target(t.v) && on == CurrentSegment(roads, e.v, e.seg, Target(t.v).value)
    ensures on == seg.(elapsed := seg.elapsed + a) && Left(on) == Left(seg) - a
  {
    on := seg.(elapsed := seg.elapsed + a);
  }

  lemma ThenArrives(roads: Roads, t: Tick, seg: Segment, a: real, e: Tick, b: real, now: real)
    requires OnTheWay(roads, t, seg, a, e) && 0.0 < b && a + b >= Left(seg)
    ensures GoesOn(roads, t, a + b, e, b, now)
  {
    var on := StillOnIt(roads, t, seg, a, e);
    DriveChains(roads, t.v, seg, a, Left(on));
    var there, target := Drive(roads, t.v, seg, Left(seg)), Target(t.v).value;
    assert Drive(roads, e.v, on, Left(on)) == there;
    assert e.(v := there, seg := None) == t.(v := there, seg := None);
    ArriveForgetsRoad(e.(v := there), t.(v := there), target, now);
  }

  /** An arrival does not depend on the road that led there. */
  lemma ArriveForgetsRoad(a: Tick, b: Tick, target: Point, now: real)
    requires Target(a.v) == Some(target) && a.(seg := None) == b.(seg := None)
    ensures Arrive(a, target, now) == Arrive(b, target, now)
  {
  }

  lemma ThenStops(roads: Roads, t: Tick, seg: Segment, a: real, e: Tick, b: real, now: real)
    requires OnTheWay(roads, t, seg, a, e) && 0.0 < b && a + b < Left(seg)
    ensures GoesOn(roads, t, a + b, e, b, now)
  {
    var on := StillOnIt(roads, t, seg, a, e);
    DriveChains(roads, t.v, seg, a, b);
    assert on.(elapsed := on.elapsed + b) == seg.(elapsed := seg.elapsed + (a + b));
  }

  /** The tick ends on the road after `a` seconds: what follows is what follows from here. */
  lemma StopsOnTheRoad(roads: Roads, t: Tick, a: real, b: real, now: real) returns (e: Tick)
    requires 0.0 < a && 0.0 <= b && Target(t.v).Some?
    requires a < Left(CurrentSegment(roads, t.v, t.seg, Target(t.v).value))
    ensures EndsAt(roads, t, a, now, e) && GoesOn(roads, t, a + b, e, b, now)
  {
    var seg := CurrentSegment(roads, t.v, t.seg, Target(t.v).value);
    e := t.(v := Drive(roads, t.v, seg, a), seg := Some(seg.(elapsed := seg.elapsed + a)));
    if b == 0.0 {
      assert Advance(roads, t, a + b, now) == e;
    } else if a + b < Left(seg) {
      ThenStops(roads, t, seg, a, e, b, now);
    } else {
      ThenArrives(roads, t, seg, a, e, b, now);
    }
  }

  /** Both ticks, the one of `a` seconds and the one of `c`, reach the target first. */
  lemma ReachesTarget(roads: Roads, t: Tick, a: real, b: real, c: real, now: real)
    returns (mid: Tick, left: real, rest: real)
    requires 0.0 < a && 0.0 <= b && c == a + b && Target(t.v).Some?
    requires a >= Left(CurrentSegment(roads, t.v, t.seg, Target(t.v).value))
    ensures Arrivals(mid.v) < Arrivals(t.v) && 0.0 <= left && rest == left + b
    ensures GoesOn(roads, t, a, mid, left, now) && GoesOn(roads, t, c, mid, rest, now)
  {
    var target := Target(t.v).value;
    var seg := CurrentSegment(roads, t.v, t.seg, target);
    var there := t.(v := Drive(roads, t.v, seg, Left(seg)));
    ArrivalPops(there, target, now);
    mid, left, rest := Arrive(there, target, now), a - Left(seg), c - Left(seg);
  }

  /** Two ticks in a row, of `a` and of `b` seconds, come to one of `c == a + b` seconds at the same time, on any roads:
      how time is cut into ticks does not matter to where vehicles go. */
  lemma {:induction false} TicksCompose(roads: Roads, t: Tick, a: real, b: real, c: real, now: real) returns (e: Tick)
    requires 0.0 <= a && 0.0 <= b && c == a + b
    ensures EndsAt(roads, t, a, now, e) && GoesOn(roads, t, c, e, b, now)
    decreases Arrivals(t.v), 1
  {
    if a == 0.0 || Target(t.v).None? {
      e := StaysPut(roads, t, a, b, c, now);
    } else if a < Left(CurrentSegment(roads, t.v, t.seg, Target(t.v).value)) {
      e := StopsOnTheRoad(roads, t, a, b, now);
    } else {
      e := ComposeOn(roads, t, a, b, c, now);
    }
  }

  lemma StaysPut(roads: Roads, t: Tick, a: real, b: real, c: real, now: real) returns (e: Tick)
    requires 0.0 <= a && 0.0 <= b && c == a + b && (a == 0.0 || Target(t.v).None?)
    ensures EndsAt(roads, t, a, now, e) && GoesOn(roads, t, c, e, b, now)
  {
    e := Advance(roads, t, a, now);
  }

  lemma {:induction false} ComposeOn(roads: Roads, t: Tick, a: real, b: real, c: real, now: real) returns (e: Tick)
    requires 0.0 < a && 0.0 <= b && c == a + b && Target(t.v).Some?
    requires a >= Left(CurrentSegment(roads, t.v, t.seg, Target(t.v).value))
    ensures EndsAt(roads, t, a, now, e) && GoesOn(roads, t, c, e, b, now)
    decreases Arrivals(t.v), 0
  {
    var mid, left, rest := ReachesTarget(roads, t, a, b, c, now);
    e := TicksCompose(roads, mid, left, b, rest, now);
    EndsTogether(roads, t, a, mid, left, now, e);
    BothGoOn(roads, t, c, mid, rest, e, b, now);
  }

  lemma BothGoOn(roads: Roads, t: Tick, r: real, mid: Tick, left: real, e: Tick, rest: real, now: real)
    requires GoesOn(roads, t, r, mid, left, now) && GoesOn(roads, mid, left, e, rest, now)
    ensures GoesOn(roads, t, r, e, rest, now)
  {
  }

  // ---------------------------------------------------------------- the fleet, over whole runs

  /** Vehicles are listed once each, and no cached piece of road has been driven to its end. */
  ghost predicate FleetLive(f: Fleet) {
    match f
    case Fleet(_, _, store, segs, _) =>
      && (forall id :: id in segs ==> CacheLive(Some(segs[id])))
      && (forall id :: id in store.order <==> id in store.vehicles)
      && (forall i, j :: 0 <= i < j < |store.order| ==> store.order[i] != store.order[j])
  }

  /** The driving time of vehicle `id` in a tick of `dt` seconds: all of it, or as long as it has somewhere to go. */
  function WorkOf(roads: Roads, dt: real, f: Fleet, id: int): real
    requires id in f.store.vehicles
  {
    Less(dt, Reach(roads, TickOf(f, id), Arrivals(f.store.vehicles[id])))
  }

  /** Vehicle number `j` when the first `k` have been moved. */
  ghost predicate WorkedAt(roads: Roads, dt: real, f: Fleet, g: Fleet, j: nat, k: nat)
    requires j < |f.store.order|
  {
    var id := f.store.order[j];
    && id in f.store.vehicles && id in g.store.vehicles
    && if j < k then g.store.vehicles[id].busyTime == f.store.vehicles[id].busyTime + WorkOf(roads, dt, f, id)
       else g.store.vehicles[id] == f.store.vehicles[id] && SegOf(g.segs, id) == SegOf(f.segs, id)
  }

  /** What a vehicle has ahead depends on nothing but the vehicle and its road. */
  lemma {:induction false} ReachIsItsOwn(roads: Roads, a: Tick, b: Tick, k: nat)
    requires a.v == b.v && a.seg == b.seg && k <= Arrivals(a.v)
    ensures Reach(roads, a, k) == Reach(roads, b, k)
  {
    if k > 1 {
      ReachIsItsOwn(roads, a, b, k - 1);
    }
  }

  /** Moving one vehicle. */
  lemma OneWorks(roads: Roads, dt: real, g: Fleet, id: int) returns (h: Fleet)
    requires Metric(roads.d) && 0.0 <= dt && FleetLive(g) && id in g.store.vehicles
    ensures h == WithTick(g, id, Advance(roads, TickOf(g, id), dt, g.now))
    ensures FleetLive(h) && id in h.store.vehicles && h.now == g.now
    ensures h.store.vehicles[id].busyTime == g.store.vehicles[id].busyTime + WorkOf(roads, dt, g, id)
    ensures h.store.vehicles.Keys == g.store.vehicles.Keys && h.store.order == g.store.order
    ensures forall other :: other != id && other in g.store.vehicles ==>
              h.store.vehicles[other] == g.store.vehicles[other] && SegOf(h.segs, other) == SegOf(g.segs, other)
  {
    var e := TickFollowsThePlan(roads, TickOf(g, id), dt, g.now);
    h := WithTick(g, id, e);
  }

  /** Part of the way through a tick. */
  ghost predicate MidWork(roads: Roads, dt: real, f: Fleet, g: Fleet, k: nat) {
    match g
    case Fleet(now, _, store, _, _) =>
      && FleetLive(g) && now == f.now && store.vehicles.Keys == f.store.vehicles.Keys && store.order == f.store.order
      && forall j :: 0 <= j < |f.store.order| ==> WorkedAt(roads, dt, f, g, j, k)
  }

  lemma MidWorkStep(roads: Roads, dt: real, f: Fleet, g: Fleet, k: nat, n: nat) returns (h: Fleet)
    requires Metric(roads.d) && 0.0 <= dt && FleetLive(f)
    requires k < n == k + 1 <= |f.store.order| && MidWork(roads, dt, f, g, k)
    ensures f.store.order[k] in g.store.vehicles
    ensures h == WithTick(g, f.store.order[k], Advance(roads, TickOf(g, f.store.order[k]), dt, f.now))
    ensures MidWork(roads, dt, f, h, n)
  {
    var id := f.store.order[k];
    assert WorkedAt(roads, dt, f, g, k, k);
    h := OneWorks(roads, dt, g, id);
    ReachIsItsOwn(roads, TickOf(g, id), TickOf(f, id), Arrivals(f.store.vehicles[id]));
    forall j | 0 <= j < |f.store.order| ensures WorkedAt(roads, dt, f, h, j, n) {
      assert WorkedAt(roads, dt, f, g, j, k);
    }
  }

  lemma WorkBegins(roads: Roads, dt: real, f: Fleet)
    requires FleetLive(f)
    ensures MidWork(roads, dt, f, f, 0)
  {
    forall j | 0 <= j < |f.store.order| ensures WorkedAt(roads, dt, f, f, j, 0) {
      assert f.store.order[j] in f.store.order;
    }
  }

  lemma {:induction false} MovedWorks(roads: Roads, dt: real, f: Fleet, k: nat) returns (g: Fleet)
    requires Metric(roads.d) && 0.0 <= dt && FleetLive(f) && k <= |f.store.order|
    ensures g == Moved(roads, dt, f, k) && MidWork(roads, dt, f, g, k)
  {
    if k > 0 {
      g := MovedWorks(roads, dt, f, k - 1);
      var h := MidWorkStep(roads, dt, f, g, k - 1, k);
      MovedOneMore(roads, dt, f, k - 1, k, g);
      g := h;
    } else {
      g := f;
      WorkBegins(roads, dt, f);
    }
  }

  /** A world tick adds to every vehicle's driving time the time it had somewhere to go. */
  lemma WorldTickWorks(roads: Roads, dt: real, f: Fleet, id: int)
    requires Metric(roads.d) && 0.0 <= dt && FleetLive(f) && Enabled(roads, f, WorldTick) && id in f.store.vehicles
    ensures var g := Service.After(roads, dt, f, WorldTick);
            && FleetLive(g) && g.q == f.q + dt && id in g.store.vehicles
            && g.store.vehicles[id].busyTime == f.store.vehicles[id].busyTime + WorkOf(roads, dt, f, id)
  {
    var g := MovedWorks(roads, dt, f, |f.store.order|);
    var j :| 0 <= j < |f.store.order| && f.store.order[j] == id;
    assert WorkedAt(roads, dt, f, g, j, |f.store.order|);
  }

  lemma WorkIsBounded(roads: Roads, dt: real, f: Fleet, id: int)
    requires Metric(roads.d) && 0.0 <= dt && FleetLive(f) && id in f.store.vehicles
    ensures 0.0 <= WorkOf(roads, dt, f, id) <= dt
  {
    if Arrivals(f.store.vehicles[id]) > 0 {
      NoneNearer(roads, TickOf(f, id), Arrivals(f.store.vehicles[id]));
    }
  }

  /** Vehicle `id` has not driven, and nothing else about driving has changed. */
  ghost predicate NotDriven(f: Fleet, g: Fleet, id: int) {
    match g
    case Fleet(_, q, store, _, _) =>
      && FleetLive(g) && q == f.q && id in f.store.vehicles && id in store.vehicles
      && store.vehicles[id].busyTime == f.store.vehicles[id].busyTime
      && store.vehicles[id].distanceTraveled == f.store.vehicles[id].distanceTraveled
      && store.vehicles[id].location == f.store.vehicles[id].location
  }

  lemma EditedNotDriven(f: Fleet, g: Fleet, vid: int, id: int)
    requires FleetLive(f) && id in f.store.vehicles && vid in f.store.vehicles && vid in g.store.vehicles
    requires g.store.vehicles == f.store.vehicles[vid := g.store.vehicles[vid]]
    requires var a, b := f.store.vehicles[vid], g.store.vehicles[vid];
             b == a.(route := b.route, version := b.version, ownerNode := b.ownerNode,
                     repositionTarget := b.repositionTarget)
    requires g.store.order == f.store.order && g.segs == f.segs && g.q == f.q
    ensures NotDriven(f, g, id)
  {
  }

  lemma BookingNotDriven(f: Fleet, r: int, node: Node, plan: Insertion.Plan, id: int)
    requires FleetLive(f) && id in f.store.vehicles && r in f.requests
    ensures NotDriven(f, Confirm(f, r, node, plan), id)
  {
    var g := Confirm(f, r, node, plan);
    if CommitAnswer(f.store, plan.vehicleId, plan.expectedVersion, node).ok {
      EditedNotDriven(f, g, plan.vehicleId, id);
    }
  }

  lemma ReassignNotDriven(f: Fleet, vid: int, owner: Node, id: int)
    requires FleetLive(f) && id in f.store.vehicles
    ensures NotDriven(f, f.(store := Reassigned(f.store, vid, owner)), id)
  {
    if vid in f.store.vehicles {
      EditedNotDriven(f, f.(store := Reassigned(f.store, vid, owner)), vid, id);
    }
  }

  /** No other event makes a vehicle drive. */
  lemma OthersDoNotDrive(roads: Roads, dt: real, f: Fleet, e: Event, id: int)
    requires FleetLive(f) && Enabled(roads, f, e) && !e.WorldTick? && id in f.store.vehicles
    ensures NotDriven(f, Service.After(roads, dt, f, e), id)
  {
    match e
    case Dispatch(r, node, plan) =>
      if plan.Some? {
        BookingNotDriven(f, r, node, plan.value, id);
      }
    case Reassign(vid, owner) => ReassignNotDriven(f, vid, owner, id);
    case Reposition(vid, _) => EditedNotDriven(f, Service.After(roads, dt, f, e), vid, id);
    case _ =>
  }

  /** In every run, on any roads, no vehicle has driven longer than the world has ticked. */
  lemma {:induction false} BusyAtMostTicked(roads: Roads, dt: real, run: seq<Fleet>, events: seq<Event>, i: nat, id: int)
    requires Metric(roads.d) && 0.0 <= dt && Service.Run(roads, dt, run, events) && i < |run| && id in run[0].store.vehicles
    ensures FleetLive(run[i]) && id in run[i].store.vehicles
    ensures 0.0 <= run[i].store.vehicles[id].busyTime - run[0].store.vehicles[id].busyTime <= run[i].q - run[0].q
  {
    if i > 0 {
      BusyAtMostTicked(roads, dt, run, events, i - 1, id);
      if events[i - 1].WorldTick? {
        WorldTickWorks(roads, dt, run[i - 1], id);
        WorkIsBounded(roads, dt, run[i - 1], id);
      } else {
        OthersDoNotDrive(roads, dt, run[i - 1], events[i - 1], id);
      }
    }
  }
}
