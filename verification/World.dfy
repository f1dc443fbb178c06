/** The world as it runs (world.py): it moves vehicle objects, their stop objects and
    request objects in place, and is proved to do what `Motion` says. */
module World {
  import opened Geo
  import opened Models
  import opened Motion
  import opened Service
  import opened Store

  ghost function RequestViews(requests: map<int, Request>): map<int, RequestState>
    reads requests.Values
  {
    map id | id in requests :: requests[id].View()
  }

  lemma RoadIs(d: Distance, path: Router, start: Point, target: Point, cum: seq<real>)
    requires |cum| == |path(start, target)|
    requires forall k :: 0 <= k < |cum| ==> cum[k] == ArcLength(d, path(start, target), k)
    ensures MakeSegment(d, path, start, target) ==
            RoadPiece(target, path(start, target), cum, cum[|cum| - 1], d(start, target), TravelTime(d, start, target), 0.0)
  {
    assert ArcLengths(d, path(start, target)) == cum;
  }

  lemma RemovedTwice<T>(m: map<int, T>, id: int)
    ensures m - {id} - {id} == m - {id}
  {
  }

  class Physics {
    const d: Distance
    const path: Router
    const motionDt: real
    const store: VehicleStore
    var requests: map<int, Request>
    var segments: map<int, Segment>

    constructor (store: VehicleStore, d: Distance, path: Router, motionDt: real, requests: map<int, Request>)
      ensures this.store == store && this.d == d && this.path == path && this.motionDt == motionDt
      ensures this.requests == requests && segments == map[]
    {
      this.store, this.d, this.path, this.motionDt := store, d, path, motionDt;
      this.requests, segments := requests, map[];
    }

    ghost function Roads(): Roads {
      Motion.Roads(d, path, RoadPosition)
    }

    /** Requests are filed under their own id. */
    ghost predicate Filed()
      reads this`requests
    {
      forall id :: id in requests ==> requests[id].id == id
    }

    /** What a tick works on. */
    ghost function State(vehicle: Vehicle): Tick
      reads this, requests.Values, vehicle, (set s | s in vehicle.route)`boardedAt
    {
      Tick(vehicle.View(), SegOf(segments, vehicle.id), RequestViews(requests))
    }

    /** `_segment`. */
    method CurrentSegment(vehicle: Vehicle, target: Point) returns (seg: Segment)
      modifies this`segments
      ensures seg == Motion.CurrentSegment(Roads(), vehicle.View(), old(SegOf(segments, vehicle.id)), target)
      ensures State(vehicle) == old(State(vehicle)).(seg := Some(seg))
      ensures segments - {vehicle.id} == old(segments) - {vehicle.id}
    {
      if vehicle.id in segments && segments[vehicle.id].to == target {
        return segments[vehicle.id];
      }
      seg := MeasureRoad(vehicle.location, target);
      segments := segments[vehicle.id := seg];
    }

    /** The road from `start` to `target`, with the arc length at each of its points. */
    method MeasureRoad(start: Point, target: Point) returns (seg: Segment)
      ensures seg == MakeSegment(d, path, start, target)
    {
      var poly := path(start, target);
      var cum := [0.0];
      for i := 1 to |poly|
        invariant |cum| == i && cum[0] == 0.0
        invariant forall k :: 0 <= k < i ==> cum[k] == ArcLength(d, poly, k)
      {
        cum := cum + [cum[|cum| - 1] + d(poly[i - 1], poly[i])];
      }
      RoadIs(d, path, start, target, cum);
      seg := RoadPiece(target, poly, cum, cum[|cum| - 1], d(start, target), TravelTime(d, start, target), 0.0);
    }

    /** Writes the boarding time on the first dropoff of request `id` in `route`. */
    method StampFirst(route: seq<RouteStop>, id: int, now: real)
      requires Distinct(route)
      modifies (set s | s in route)`boardedAt
      ensures Views(route) == StampBoarding(old(Views(route)), id, now)
    {
      ghost var views := Views(route);
      var k := 0;
      while k < |route| && !(route[k].requestId == id && route[k].stopType == Dropoff)
        invariant k <= |route| && Views(route) == views
        invariant forall j :: 0 <= j < k ==> !(views[j].requestId == id && views[j].stopType.Dropoff?)
      {
        k := k + 1;
      }
      StampAt(views, id, now, k);
      if k < |route| {
        route[k].boardedAt := Some(now);
      }
    }

    twostate lemma OneRequestChanged(id: int)
      requires old(Filed()) && requests == old(requests) && id in requests
      requires forall other :: other in requests && other != id ==> unchanged(requests[other])
      ensures RequestViews(requests) == old(RequestViews(requests))[id := requests[id].View()]
    {
      forall other | other in requests && other != id
        ensures requests[other].View() == old(requests[other].View())
      {
      }
    }

    /** A passenger gets on. */
    method TakeOn(vehicle: Vehicle, req: Request, now: real)
      requires Filed() && Distinct(vehicle.route) && req.id in requests && requests[req.id] == req
      modifies vehicle`onboard, (set s | s in vehicle.route)`boardedAt
      modifies req`status, req`pickupTime
      ensures vehicle.View() == old(vehicle.View()).(onboard := old(vehicle.onboard) + req.partySize,
                                                     route := StampBoarding(old(Views(vehicle.route)), req.id, now))
      ensures RequestViews(requests) ==
              old(RequestViews(requests))[req.id := old(req.View()).(status := Onboard, pickupTime := Some(now))]
    {
      vehicle.onboard := vehicle.onboard + req.partySize;
      req.status, req.pickupTime := Onboard, Some(now);
      StampFirst(vehicle.route, req.id, now);
      OneRequestChanged(req.id);
    }

    /** A passenger gets off. */
    method LetOff(vehicle: Vehicle, req: Request, now: real)
      requires Filed() && req.id in requests && requests[req.id] == req
      modifies vehicle`onboard, req`status, req`dropoffTime
      ensures vehicle.View() == old(vehicle.View()).(onboard := if old(vehicle.onboard) - req.partySize > 0
                                                                then old(vehicle.onboard) - req.partySize else 0)
      ensures RequestViews(requests) ==
              old(RequestViews(requests))[req.id := old(req.View()).(status := Completed, dropoffTime := Some(now))]
    {
      vehicle.onboard := if vehicle.onboard - req.partySize > 0 then vehicle.onboard - req.partySize else 0;
      req.status, req.dropoffTime := Completed, Some(now);
      OneRequestChanged(req.id);
    }

    /** `_process_stop` on the first stop of the route. */
    method ProcessStop(vehicle: Vehicle, now: real)
      requires Filed() && vehicle.route != [] && Distinct(vehicle.route)
      modifies vehicle`onboard, (set s | s in vehicle.route)`boardedAt
      modifies requests.Values`status, requests.Values`pickupTime, requests.Values`dropoffTime
      ensures State(vehicle) == Motion.ProcessStop(old(State(vehicle)), now)
      ensures vehicle.route[0].requestId !in requests ==> State(vehicle) == old(State(vehicle))
      ensures vehicle.route[0].requestId in requests ==>
                var party := requests[vehicle.route[0].requestId].partySize;
                vehicle.onboard == if vehicle.route[0].stopType == Pickup then old(vehicle.onboard) + party
                                   else if old(vehicle.onboard) < party then 0 else old(vehicle.onboard) - party
    {
      ghost var t := State(vehicle);
      var stop := vehicle.route[0];
      if stop.requestId !in requests {
        return;
      }
      var req := requests[stop.requestId];
      assert t.requests[stop.requestId] == req.View() && t.v.route[0] == stop.View();
      if stop.stopType == Pickup {
        TakeOn(vehicle, req, now);
      } else {
        LetOff(vehicle, req, now);
      }
    }

    /** The vehicle after `used` seconds along `seg`, which it has then driven as far as `driven` says. */
    method MoveAlong(vehicle: Vehicle, seg: Segment, driven: Segment, used: real)
      requires driven == seg.(elapsed := seg.elapsed + used)
      modifies vehicle`distanceTraveled, vehicle`busyTime, vehicle`location
      ensures vehicle.View() == Motion.Drive(Roads(), old(vehicle.View()), seg, used)
      ensures vehicle.busyTime == old(vehicle.busyTime) + if seg.straightTT > 0.0 then used else 0.0
      ensures vehicle.distanceTraveled ==
              old(vehicle.distanceTraveled)
              + if seg.straightTT > 0.0 then seg.straightDist * (used / seg.straightTT) else 0.0
    {
      if seg.straightTT > 0.0 {
        vehicle.distanceTraveled := vehicle.distanceTraveled + seg.straightDist * (used / seg.straightTT);
        vehicle.busyTime := vehicle.busyTime + used;
        vehicle.location := Interp(driven, driven.elapsed / driven.straightTT);
      }
    }

    /** Driving for `used` seconds along `seg`. */
    method Drive(vehicle: Vehicle, seg: Segment, used: real) returns (driven: Segment)
      requires SegOf(segments, vehicle.id) == Some(seg)
      modifies this`segments, vehicle`distanceTraveled, vehicle`busyTime, vehicle`location
      ensures driven == seg.(elapsed := seg.elapsed + used)
      ensures State(vehicle) == old(State(vehicle)).(v := Motion.Drive(Roads(), old(vehicle.View()), seg, used),
                                                     seg := Some(driven))
      ensures vehicle.busyTime == old(vehicle.busyTime) + if seg.straightTT > 0.0 then used else 0.0
      ensures segments - {vehicle.id} == old(segments) - {vehicle.id}
    {
      driven := seg.(elapsed := seg.elapsed + used);
      segments := segments[vehicle.id := driven];
      MoveAlong(vehicle, seg, driven, used);
    }

    /** Reaching the target: serving the stop there, or ending the reposition. */
    method Arrive(vehicle: Vehicle, target: Point, now: real)
      requires Filed() && Distinct(vehicle.route) && Target(vehicle.View()) == Some(target)
      modifies this`segments, vehicle`location, vehicle`onboard, vehicle`route, vehicle`repositionTarget
      modifies (set s | s in vehicle.route)`boardedAt
      modifies requests.Values`status, requests.Values`pickupTime, requests.Values`dropoffTime
      ensures State(vehicle) == Motion.Arrive(old(State(vehicle)), target, now)
      ensures segments == old(segments) - {vehicle.id}
      ensures vehicle.route == if old(vehicle.route) != [] then old(vehicle.route)[1..] else []
    {
      Halt(vehicle, target);
      if vehicle.route == [] {
        vehicle.repositionTarget := None;
        return;
      }
      ProcessStop(vehicle, now);
      PopStop(vehicle);
    }

    /** The vehicle is at the end of its piece of road. */
    method Halt(vehicle: Vehicle, target: Point)
      modifies this`segments, vehicle`location
      ensures State(vehicle) == old(State(vehicle)).(v := old(vehicle.View()).(location := target), seg := None)
      ensures segments == old(segments) - {vehicle.id}
    {
      vehicle.location := target;
      segments := segments - {vehicle.id};
    }

    /** The first stop has been served. */
    method PopStop(vehicle: Vehicle)
      requires vehicle.route != []
      modifies vehicle`route
      ensures vehicle.route == old(vehicle.route)[1..]
      ensures State(vehicle) == old(State(vehicle)).(v := old(vehicle.View()).(route := old(Views(vehicle.route))[1..]))
    {
      vehicle.route := vehicle.route[1..];
    }

    static method SecondsUsed(seg: Segment, remaining: real) returns (arrived: bool, used: real)
      requires 0.0 < remaining
      ensures arrived == (remaining >= Left(seg)) && used == if arrived then Left(seg) else remaining
    {
      if seg.straightTT <= 0.0 {
        return true, 0.0;
      }
      var avail := seg.straightTT - seg.elapsed;
      if remaining >= avail {
        return true, avail;
      }
      return false, remaining;
    }

    /** Driving as far as the target, or as far as the seconds last.  `left` is what remains of the tick. */
    method DriveTowards(vehicle: Vehicle, target: Point, remaining: real) returns (arrived: bool, left: real)
      requires 0.0 < remaining && Target(vehicle.View()) == Some(target)
      modifies this`segments, vehicle`distanceTraveled, vehicle`busyTime, vehicle`location
      ensures segments - {vehicle.id} == old(segments) - {vehicle.id}
      ensures Driven(Roads(), old(State(vehicle)), target, remaining, arrived, left, State(vehicle))
    {
      ghost var t := State(vehicle);
      var seg := CurrentSegment(vehicle, target);
      var used;
      arrived, used := SecondsUsed(seg, remaining);
      left := remaining - used;
      var driven := Drive(vehicle, seg, used);
      DrivenBy(Roads(), t, target, remaining, arrived, used, seg, State(vehicle));
    }

    method AdvanceTowards(vehicle: Vehicle, target: Point, remaining: real, now: real) returns (arrived: bool, left: real)
      requires Filed() && Distinct(vehicle.route) && 0.0 < remaining && Target(vehicle.View()) == Some(target)
      modifies this`segments, vehicle, (set s | s in vehicle.route)`boardedAt
      modifies requests.Values`status, requests.Values`pickupTime, requests.Values`dropoffTime
      ensures segments - {vehicle.id} == old(segments) - {vehicle.id}
      ensures vehicle.route == if arrived && old(vehicle.route) != [] then old(vehicle.route)[1..] else old(vehicle.route)
      ensures !arrived ==> SameEnd(Roads(), State(vehicle), 0.0, old(State(vehicle)), remaining, now)
      ensures arrived ==> Arrivals(vehicle.View()) < Arrivals(old(vehicle.View()))
      ensures arrived ==> SameEnd(Roads(), State(vehicle), left, old(State(vehicle)), remaining, now)
    {
      ghost var t := State(vehicle);
      arrived, left := DriveTowards(vehicle, target, remaining);
      ghost var there, segs := State(vehicle), segments;
      if arrived {
        DrivenKeeps(Roads(), t, target, remaining, left, there);
        Arrive(vehicle, target, now);
        RemovedTwice(segs, vehicle.id);
        AdvanceArrives(Roads(), t, target, remaining, left, now, there, State(vehicle));
      } else {
        AdvanceStops(Roads(), t, target, remaining, left, now, there);
      }
    }

    /** One round of the loop of `_advance`. */
    method AdvanceOnce(vehicle: Vehicle, remaining: real, now: real) returns (arrived: bool, left: real)
      requires Filed() && Distinct(vehicle.route) && 0.0 < remaining
      modifies this`segments, vehicle, (set s | s in vehicle.route)`boardedAt
      modifies requests.Values`status, requests.Values`pickupTime, requests.Values`dropoffTime
      ensures segments - {vehicle.id} == old(segments) - {vehicle.id}
      ensures vehicle.route == if arrived && old(vehicle.route) != [] then old(vehicle.route)[1..] else old(vehicle.route)
      ensures !arrived ==> SameEnd(Roads(), State(vehicle), 0.0, old(State(vehicle)), remaining, now)
      ensures arrived ==> Arrivals(vehicle.View()) < Arrivals(old(vehicle.View()))
      ensures arrived ==> SameEnd(Roads(), State(vehicle), left, old(State(vehicle)), remaining, now)
    {
      var target := if vehicle.route != [] then Some(vehicle.route[0].location) else vehicle.repositionTarget;
      assert target == Target(vehicle.View());
      if target.None? {
        segments := segments - {vehicle.id};
        return false, remaining;
      }
      arrived, left := AdvanceTowards(vehicle, target.value, remaining, now);
    }

    /** `_advance`. */
    method Advance(vehicle: Vehicle, dt: real, now: real)
      requires Filed() && Distinct(vehicle.route)
      modifies this`segments, vehicle, (set s | s in vehicle.route)`boardedAt
      modifies requests.Values`status, requests.Values`pickupTime, requests.Values`dropoffTime
      ensures State(vehicle) == Motion.Advance(Roads(), old(State(vehicle)), dt, now)
      ensures segments - {vehicle.id} == old(segments) - {vehicle.id}
      ensures RestOf(vehicle.route, old(vehicle.route))
    {
      var remaining := dt;
      ghost var t, route := State(vehicle), vehicle.route;
      while remaining > 0.0
        invariant SameEnd(Roads(), State(vehicle), remaining, t, dt, now)
        invariant segments - {vehicle.id} == old(segments) - {vehicle.id}
        invariant RestOf(vehicle.route, route)
        decreases Arrivals(vehicle.View())
      {
        ghost var before, r := State(vehicle), remaining;
        RestIsDistinct(vehicle.route, route);
        var arrived;
        arrived, remaining := AdvanceOnce(vehicle, remaining, now);
        SameEndChain(Roads(), State(vehicle), if arrived then remaining else 0.0, before, r, t, dt, now);
        if !arrived {
          SameEndHere(Roads(), State(vehicle), 0.0, t, dt, now);
          return;
        }
      }
      SameEndHere(Roads(), State(vehicle), remaining, t, dt, now);
    }

    ghost function FleetView(now: real, q: real): Fleet
      reads this, requests.Values, store, store.vehicles.Values
      reads (set id, s | id in store.vehicles && s in store.vehicles[id].route :: s)`boardedAt
    {
      Fleet(now, q, store.View(), segments, RequestViews(requests))
    }

    /** No vehicle but `id` looks different or has another route, and no other road piece is cached. */
    twostate predicate MovedAlone(id: int)
      reads this, store, store.vehicles.Values
      reads (set other, s | other in store.vehicles && s in store.vehicles[other].route :: s)`boardedAt
    {
      && unchanged(store) && requests == old(requests) && id in store.vehicles
      && store.OthersLookTheSame(id) && store.OthersKeepRoutes(id)
      && segments - {id} == old(segments) - {id}
      && RestOf(store.vehicles[id].route, old(store.vehicles[id].route))
    }

    /** The fleet changed as in one vehicle's tick. */
    twostate lemma OneVehicleMoved(id: int)
      requires old(store.Valid() && store.Apart()) && MovedAlone(id)
      ensures store.Apart()
      ensures store.View() == old(store.View()).(vehicles := old(store.View()).vehicles[id := store.vehicles[id].View()])
      ensures segments == WithSeg(old(segments), id, State(store.vehicles[id]).seg)
    {
      store.OneVehicleChanged(id);
      store.ApartAfter(id);
      OnePieceChanged(old(segments), segments, id);
    }

    /** One vehicle moves by one tick. */
    method MoveAlone(id: int, now: real)
      requires Filed() && store.Valid() && store.Apart() && id in store.vehicles
      modifies this`segments, store.vehicles[id], (set s | s in store.vehicles[id].route)`boardedAt
      modifies requests.Values`status, requests.Values`pickupTime, requests.Values`dropoffTime
      ensures MovedAlone(id)
      ensures State(store.vehicles[id]) == Motion.Advance(Roads(), old(State(store.vehicles[id])), motionDt, now)
    {
      forall other | other in store.vehicles && other != id
        ensures forall s :: s in store.vehicles[other].route ==> s !in store.vehicles[id].route
      {
      }
      ghost var route := store.vehicles[id].route;
      Advance(store.vehicles[id], motionDt, now);
      forall other | other in store.vehicles && other != id
        ensures store.vehicles[other].View() == old(store.vehicles[other].View())
      {
        assert forall s :: s in store.vehicles[other].route ==> s !in route;
        LooksTheSame(store.vehicles[other]);
      }
    }

    ghost function TickedOnce(f: Fleet, id: int): Fleet
      requires id in f.store.vehicles
    {
      WithTick(f, id, Motion.Advance(Roads(), TickOf(f, id), motionDt, f.now))
    }

    /** One vehicle of the fleet moves by one tick. */
    method MoveOne(id: int, now: real, ghost q: real)
      requires Filed() && store.Valid() && store.Apart() && id in store.vehicles
      modifies this`segments, store.vehicles[id], (set s | s in store.vehicles[id].route)`boardedAt
      modifies requests.Values`status, requests.Values`pickupTime, requests.Values`dropoffTime
      ensures store.Apart()
      ensures forall s :: s in store.vehicles[id].route ==> s in old(store.vehicles[id].route)
      ensures FleetView(now, q) == TickedOnce(old(FleetView(now, q)), id)
    {
      ghost var f, route := FleetView(now, q), store.vehicles[id].route;
      MoveAlone(id, now);
      RestIncluded(store.vehicles[id].route, route);
      OneVehicleMoved(id);
      WithTickIs(f, id, State(store.vehicles[id]), FleetView(now, q));
    }

    /** All stops on the way are among `stops`. */
    ghost predicate StopsAmong(stops: set<RouteStop>)
      reads store`vehicles, store.vehicles.Values`route
    {
      forall id :: id in store.vehicles ==> forall s :: s in store.vehicles[id].route ==> s in stops
    }

    /** A listed vehicle moves. */
    method MoveListed(k: nat, now: real, ghost q: real, ghost stops: set<RouteStop>)
      requires Filed() && store.Valid() && store.Apart() && k < |store.order| && StopsAmong(stops)
      modifies this`segments, store.vehicles.Values, stops`boardedAt
      modifies requests.Values`status, requests.Values`pickupTime, requests.Values`dropoffTime
      ensures store.Apart() && StopsAmong(stops) && store.order[k] in store.vehicles
      ensures FleetView(now, q) == TickedOnce(old(FleetView(now, q)), store.order[k])
    {
      assert store.order[k] in store.order;
      MoveOne(store.order[k], now, q);
    }

    /** One round of the loop of `run`: the whole fleet moves by one tick. */
    method RunTick(now: real, ghost q: real)
      requires Filed() && store.Valid() && store.Apart()
      modifies this`segments, store.vehicles.Values
      modifies (set id, s | id in store.vehicles && s in store.vehicles[id].route :: s)`boardedAt
      modifies requests.Values`status, requests.Values`pickupTime, requests.Values`dropoffTime
      ensures store.Valid() && store.Apart()
      ensures FleetView(now, q) == Moved(Roads(), motionDt, old(FleetView(now, q)), |store.order|)
    {
      ghost var f := FleetView(now, q);
      ghost var stops := set id, s | id in store.vehicles && s in store.vehicles[id].route :: s;
      for k := 0 to |store.order|
        invariant store.Apart() && StopsAmong(stops)
        invariant FleetView(now, q) == Moved(Roads(), motionDt, f, k)
      {
        ghost var g := FleetView(now, q);
        MoveListed(k, now, q, stops);
        MovedOneMore(Roads(), motionDt, f, k, k + 1, g);
      }
    }
  }

  twostate lemma LooksTheSame(v: Vehicle)
    requires unchanged(v) && forall s :: s in v.route ==> unchanged(s`boardedAt)
    ensures v.View() == old(v.View())
  {
  }

  lemma WithTickIs(f: Fleet, id: int, t: Tick, g: Fleet)
    requires g.now == f.now && g.q == f.q && g.requests == t.requests && g.segs == WithSeg(f.segs, id, t.seg)
    requires g.store == f.store.(vehicles := f.store.vehicles[id := t.v])
    ensures g == WithTick(f, id, t)
  {
  }

  lemma OnePieceChanged(a: map<int, Segment>, b: map<int, Segment>, id: int)
    requires b - {id} == a - {id}
    ensures b == WithSeg(a, id, SegOf(b, id))
  {
    forall k | k != id ensures (k in a <==> k in b) && (k in a ==> a[k] == b[k]) {
      assert k in b - {id} <==> k in a - {id};
      assert k in a - {id} ==> (b - {id})[k] == (a - {id})[k];
    }
  }

  /** With `r` seconds to go, `a` ends where `b` ends with `s` seconds to go. */
  ghost predicate SameEnd(roads: Roads, a: Tick, r: real, b: Tick, s: real, now: real) {
    match b
    case Tick(v, seg, requests) =>
      Motion.Advance(roads, a, r, now) == Motion.Advance(roads, Tick(v, seg, requests), s, now)
  }

  /** `b` is the end of `a`. */
  ghost predicate RestOf(b: seq<RouteStop>, a: seq<RouteStop>) {
    |b| <= |a| && b == a[|a| - |b|..]
  }

  /** What is left of a route has no stop twice, and nor has the rest of it. */
  lemma RestIsDistinct(b: seq<RouteStop>, a: seq<RouteStop>)
    requires RestOf(b, a) && Distinct(a)
    ensures Distinct(b) && (b != [] ==> RestOf(b[1..], a))
  {
    forall i, j | 0 <= i < j < |b| ensures b[i] != b[j] {
      assert a[|a| - |b| + i] != a[|a| - |b| + j];
    }
  }

  lemma RestIncluded(b: seq<RouteStop>, a: seq<RouteStop>)
    requires RestOf(b, a)
    ensures forall s :: s in b ==> s in a
  {
  }

  lemma SameEndChain(roads: Roads, a: Tick, r: real, b: Tick, s: real, c: Tick, u: real, now: real)
    requires SameEnd(roads, a, r, b, s, now) && SameEnd(roads, b, s, c, u, now)
    ensures SameEnd(roads, a, r, c, u, now)
  {
  }

  /** With no seconds left the end is here. */
  lemma SameEndHere(roads: Roads, a: Tick, r: real, b: Tick, s: real, now: real)
    requires SameEnd(roads, a, r, b, s, now) && r <= 0.0
    ensures a == Motion.Advance(roads, b, s, now)
  {
  }

  /** Driving towards `target` for as long as `remaining` allows makes `t` into `there`. */
  ghost predicate Driven(roads: Roads, t: Tick, target: Point, remaining: real, arrived: bool, left: real, there: Tick) {
    match there
    case Tick(v, seg, requests) =>
      var s := Motion.CurrentSegment(roads, t.v, t.seg, target);
      var used := remaining - left;
      && arrived == (remaining >= Left(s))
      && used == (if arrived then Left(s) else remaining)
      && v == Drive(roads, t.v, s, used)
      && seg == Some(s.(elapsed := s.elapsed + used))
      && requests == t.requests
  }

  lemma DrivenBy(roads: Roads, t: Tick, target: Point, remaining: real, arrived: bool, used: real, seg: Segment,
                 there: Tick)
    requires seg == Motion.CurrentSegment(roads, t.v, t.seg, target)
    requires arrived == (remaining >= Left(seg)) && used == if arrived then Left(seg) else remaining
    requires there.v == Motion.Drive(roads, t.v, seg, used)
    requires there.seg == Some(seg.(elapsed := seg.elapsed + used)) && there.requests == t.requests
    ensures Driven(roads, t, target, remaining, arrived, remaining - used, there)
  {
  }

  lemma DrivenKeeps(roads: Roads, t: Tick, target: Point, remaining: real, left: real, there: Tick)
    requires Driven(roads, t, target, remaining, true, left, there)
    ensures Target(there.v) == Target(t.v) && Arrivals(there.v) == Arrivals(t.v)
  {
  }

  /** `_advance` goes on after an arrival with the seconds that are left. */
  lemma AdvanceArrives(roads: Roads, t: Tick, target: Point, remaining: real, left: real, now: real,
                       there: Tick, next: Tick)
    requires 0.0 < remaining && Target(t.v) == Some(target) == Target(there.v)
    requires Driven(roads, t, target, remaining, true, left, there) && next == Arrive(there, target, now)
    ensures SameEnd(roads, next, left, t, remaining, now)
  {
  }

  /** `_advance` ends short of the target. */
  lemma AdvanceStops(roads: Roads, t: Tick, target: Point, remaining: real, left: real, now: real, there: Tick)
    requires 0.0 < remaining && Target(t.v) == Some(target)
    requires Driven(roads, t, target, remaining, false, left, there)
    ensures SameEnd(roads, there, 0.0, t, remaining, now)
  {
  }

  lemma {:induction false} StampAt(route: seq<Stop>, id: int, now: real, k: nat)
    requires k <= |route|
    requires forall j :: 0 <= j < k ==> !(route[j].requestId == id && route[j].stopType.Dropoff?)
    requires k < |route| ==> route[k].requestId == id && route[k].stopType.Dropoff?
    ensures StampBoarding(route, id, now) ==
            if k < |route| then route[k := route[k].(boardedAt := Some(now))] else route
  {
    if k > 0 {
      StampAt(route[1..], id, now, k - 1);
    }
  }
}
