/** What the engine's check and search mean, without the recursion they are computed by: a timetable gives
    the arrival time and the number on board at every stop, and the limits are read off it. */
module Timetable {
  import opened Geo
  import opened Models
  import opened Schedule
  import opened Insertion

  // ---------------------------------------------------------------- timetables

  /** Stop `k` is reached a drive at 24 km/h after the one before it. */
  predicate ArrivesAt(d: Distance, loc: Point, now: real, route: seq<Stop>, at: seq<real>, k: nat)
    requires k < |route| == |at|
  {
    if k == 0 then at[k] == now + 150.0 * d(loc, route[k].location)
    else at[k] == at[k - 1] + 150.0 * d(route[k - 1].location, route[k].location)
  }

  /** `at` are the arrival times along the route, leaving `loc` at `now`. */
  ghost predicate Arrives(d: Distance, loc: Point, now: real, route: seq<Stop>, at: seq<real>) {
    |at| == |route| && forall k :: 0 <= k < |route| ==> ArrivesAt(d, loc, now, route, at, k)
  }

  /** At a pickup the party gets on, at a dropoff it gets off. */
  predicate FillsAt(onboard: int, route: seq<Stop>, on: seq<int>, k: nat)
    requires k < |route| == |on|
  {
    on[k] == (if k == 0 then onboard else on[k - 1])
             + (if route[k].stopType.Pickup? then route[k].partySize as int else -(route[k].partySize as int))
  }

  /** `on` are the numbers on board after each stop. */
  ghost predicate Fills(onboard: int, route: seq<Stop>, on: seq<int>) {
    |on| == |route| && forall k :: 0 <= k < |route| ==> FillsAt(onboard, route, on, k)
  }

  /** The passenger dropped at stop `k` gets on at stop `j`: the last pickup of the request before it. */
  predicate GetsOn(route: seq<Stop>, j: nat, k: nat)
    requires k < |route|
  {
    && j < k && route[j].stopType.Pickup? && route[j].requestId == route[k].requestId
    && forall i :: j < i < k ==> !(route[i].stopType.Pickup? && route[i].requestId == route[k].requestId)
  }

  /** The seats and the waiting limit at a pickup; at a dropoff the limit of the ride, from when the passenger gets
      on or has got on.  If neither is known, or the direct ride takes no time, there is no limit. */
  predicate WithinLimits(route: seq<Stop>, at: seq<real>, on: seq<int>, capacity: nat, k: nat)
    requires k < |route| == |at| == |on|
  {
    var s := route[k];
    if s.stopType.Pickup? then on[k] <= capacity && at[k] - s.requestTime <= s.maxWait
    else if s.directTime <= 0.0 then true
    else if exists j :: 0 <= j < k && GetsOn(route, j, k) then
      forall j :: 0 <= j < k && GetsOn(route, j, k) ==> at[k] - at[j] <= s.directTime * s.maxDetour
    else s.boardedAt.Some? ==> at[k] - s.boardedAt.value <= s.directTime * s.maxDetour
  }

  /** The route can be driven from `loc` at `now` with everybody's limits kept. */
  ghost predicate Acceptable(d: Distance, loc: Point, onboard: int, capacity: nat, now: real, route: seq<Stop>) {
    exists at, on ::
      && Arrives(d, loc, now, route, at) && Fills(onboard, route, on)
      && forall k :: 0 <= k < |route| ==> WithinLimits(route, at, on, capacity, k)
  }

  lemma {:induction false} ArrivalIs(d: Distance, loc: Point, now: real, route: seq<Stop>, at: seq<real>, k: nat)
    requires Arrives(d, loc, now, route, at) && k < |route|
    ensures at[k] == Clock(d, loc, now, route, k + 1)
  {
    assert ArrivesAt(d, loc, now, route, at, k);
    if k > 0 {
      ArrivalIs(d, loc, now, route, at, k - 1);
    } else {
      assert Clock(d, loc, now, route, 0) == now;
    }
  }

  lemma {:induction false} FillingIs(onboard: int, route: seq<Stop>, on: seq<int>, k: nat)
    requires Fills(onboard, route, on) && k < |route|
    ensures on[k] == Load(onboard, route, k + 1)
  {
    assert FillsAt(onboard, route, on, k);
    if k > 0 {
      FillingIs(onboard, route, on, k - 1);
    } else {
      assert Load(onboard, route, 0) == onboard;
    }
  }

  /** Every route has a timetable. */
  lemma HasTimetable(d: Distance, loc: Point, onboard: int, now: real, route: seq<Stop>)
    returns (at: seq<real>, on: seq<int>)
    ensures Arrives(d, loc, now, route, at) && Fills(onboard, route, on)
  {
    at := seq(|route|, k requires 0 <= k < |route| => Clock(d, loc, now, route, k + 1));
    on := seq(|route|, k requires 0 <= k < |route| => Load(onboard, route, k + 1));
    forall k | 0 <= k < |route|
      ensures ArrivesAt(d, loc, now, route, at, k) && FillsAt(onboard, route, on, k)
    {
      assert k == 0 ==> Clock(d, loc, now, route, 0) == now && Load(onboard, route, 0) == onboard;
    }
  }

  /** The last pickup before a dropoff is where its passenger gets on. */
  lemma GetsOnIs(route: seq<Stop>, k: nat)
    requires k < |route|
    ensures var p := LastPickup(route, route[k].requestId, k);
            && (p.Some? ==> GetsOn(route, p.value, k) && forall j :: 0 <= j < k && GetsOn(route, j, k) ==> j == p.value)
            && (p.None? ==> forall j :: 0 <= j < k ==> !GetsOn(route, j, k))
  {
    var p := LastPickup(route, route[k].requestId, k);
    if p.Some? {
      NoneBetween(route, route[k].requestId, k);
    }
  }

  lemma {:induction false} NoneBetween(route: seq<Stop>, id: int, k: nat)
    requires k <= |route| && LastPickup(route, id, k).Some?
    ensures forall i :: LastPickup(route, id, k).value < i < k ==> !(route[i].stopType.Pickup? && route[i].requestId == id)
  {
    if k > 0 && !(route[k - 1].stopType.Pickup? && route[k - 1].requestId == id) {
      NoneBetween(route, id, k - 1);
    }
  }

  lemma LimitsAt(d: Distance, loc: Point, onboard: int, capacity: nat, now: real, route: seq<Stop>, at: seq<real>,
                 on: seq<int>, k: nat)
    requires Arrives(d, loc, now, route, at) && Fills(onboard, route, on) && k < |route|
    ensures WithinLimits(route, at, on, capacity, k) <==>
            OnTime(d, loc, now, route, k) && HasSeats(onboard, capacity, route, k)
  {
    ArrivalIs(d, loc, now, route, at, k);
    FillingIs(onboard, route, on, k);
    GetsOnIs(route, k);
    var p := LastPickup(route, route[k].requestId, k);
    if p.Some? {
      ArrivalIs(d, loc, now, route, at, p.value);
    }
  }

  /** The engine's check says yes exactly if the timetable of the route keeps every limit. */
  lemma FeasibleIff(d: Distance, loc: Point, onboard: int, capacity: nat, now: real, route: seq<Stop>)
    ensures Feasible(d, loc, onboard, capacity, now, route) <==> Acceptable(d, loc, onboard, capacity, now, route)
  {
    var at, on := HasTimetable(d, loc, onboard, now, route);
    forall at', on' | Arrives(d, loc, now, route, at') && Fills(onboard, route, on')
      ensures (forall k :: 0 <= k < |route| ==> WithinLimits(route, at', on', capacity, k))
         <==> Feasible(d, loc, onboard, capacity, now, route)
    {
      FeasibleBy(d, loc, onboard, capacity, now, route, at', on');
    }
  }

  lemma FeasibleBy(d: Distance, loc: Point, onboard: int, capacity: nat, now: real, route: seq<Stop>, at: seq<real>,
                   on: seq<int>)
    requires Arrives(d, loc, now, route, at) && Fills(onboard, route, on)
    ensures Feasible(d, loc, onboard, capacity, now, route)
       <==> forall k :: 0 <= k < |route| ==> WithinLimits(route, at, on, capacity, k)
  {
    forall k | 0 <= k < |route|
      ensures WithinLimits(route, at, on, capacity, k) <==>
              OnTime(d, loc, now, route, k) && HasSeats(onboard, capacity, route, k)
    {
      LimitsAt(d, loc, onboard, capacity, now, route, at, on, k);
    }
  }

  // ---------------------------------------------------------------- the search

  /** The driving time of a route: the last arrival, leaving at time 0. */
  ghost predicate Takes(d: Distance, loc: Point, route: seq<Stop>, time: real) {
    exists at :: Arrives(d, loc, 0.0, route, at) && time == if route == [] then 0.0 else at[|route| - 1]
  }

  lemma TakesIff(d: Distance, loc: Point, route: seq<Stop>, time: real)
    ensures Takes(d, loc, route, time) <==> time == RouteTime(d, loc, route)
  {
    var at, on := HasTimetable(d, loc, 0, 0.0, route);
    forall at' | Arrives(d, loc, 0.0, route, at')
      ensures RouteTime(d, loc, route) == if route == [] then 0.0 else at'[|route| - 1]
    {
      if route != [] {
        ArrivalIs(d, loc, 0.0, route, at', |route| - 1);
      }
    }
  }

  /** Route `c` is the vehicle's route with the request's pickup and dropoff put in: the other stops stay in order. */
  ghost predicate Serves(d: Distance, v: VehicleState, r: RequestState, c: seq<Stop>) {
    var direct := 150.0 * d(r.origin, r.destination);
    && Select(c, r.id, false) == v.route
    && Select(c, r.id, true) ==
       [Stop(r.id, Pickup, r.origin, r.partySize, r.requestTime, r.maxWait, direct, r.maxDetourFactor, None),
        Stop(r.id, Dropoff, r.destination, r.partySize, r.requestTime, r.maxWait, direct, r.maxDetourFactor, None)]
  }

  /** Driving route `c` takes `cost` seconds longer than driving the vehicle's own. */
  ghost predicate Costs(d: Distance, v: VehicleState, c: seq<Stop>, cost: real) {
    exists long, short :: Takes(d, v.location, c, long) && Takes(d, v.location, v.route, short) && cost == long - short
  }

  /** The vehicle can serve the request by driving route `c`. */
  ghost predicate CanServe(d: Distance, v: VehicleState, r: RequestState, now: real, c: seq<Stop>) {
    Serves(d, v, r, c) && Acceptable(d, v.location, v.onboard, v.capacity, now, c)
  }

  lemma CostsIff(d: Distance, v: VehicleState, r: RequestState, pi: nat, di: nat, cost: real)
    requires pi <= di <= |v.route|
    ensures Costs(d, v, Candidate(d, v, r, pi, di), cost) <==> cost == Added(d, v, r, pi, di)
  {
    var c := Candidate(d, v, r, pi, di);
    TakesIff(d, v.location, c, RouteTime(d, v.location, c));
    TakesIff(d, v.location, v.route, RouteTime(d, v.location, v.route));
    forall long, short | Takes(d, v.location, c, long) && Takes(d, v.location, v.route, short)
      ensures long - short == Added(d, v, r, pi, di)
    {
      TakesIff(d, v.location, c, long);
      TakesIff(d, v.location, v.route, short);
    }
  }

  /** A placement that fits is a way to serve the request. */
  lemma FitsServes(d: Distance, v: VehicleState, r: RequestState, now: real, pi: nat, di: nat)
    requires Fresh(v.route, r.id) && pi <= di <= |v.route|
    ensures Fits(d, v, r, now, pi, di) <==> CanServe(d, v, r, now, Candidate(d, v, r, pi, di))
  {
    SelectOfPlaced(v.route, r.StopFor(d, Pickup), r.StopFor(d, Dropoff), pi, di);
    FeasibleIff(d, v.location, v.onboard, v.capacity, now, Candidate(d, v, r, pi, di));
  }

  /** A way to serve the request is a placement that fits. */
  lemma ServesFits(d: Distance, v: VehicleState, r: RequestState, now: real, c: seq<Stop>) returns (pi: nat, di: nat)
    requires Fresh(v.route, r.id) && CanServe(d, v, r, now, c)
    ensures Fits(d, v, r, now, pi, di) && c == Candidate(d, v, r, pi, di)
  {
    assert Select(c, r.id, true) == [r.StopFor(d, Pickup), r.StopFor(d, Dropoff)];
    pi, di := FindPlacement(v.route, r.StopFor(d, Pickup), r.StopFor(d, Dropoff), c);
    FitsServes(d, v, r, now, pi, di);
  }

  /** The search finds nothing exactly if no vehicle can serve the request, whatever route it takes. */
  lemma NoPlanIff(d: Distance, r: RequestState, vs: seq<VehicleState>, now: real)
    requires forall i :: 0 <= i < |vs| ==> Fresh(vs[i].route, r.id)
    ensures Winner(d, r, vs, now, None) <==> forall i, c :: 0 <= i < |vs| ==> !CanServe(d, vs[i], r, now, c)
  {
    if Winner(d, r, vs, now, None) {
      forall i, c | 0 <= i < |vs| ensures !CanServe(d, vs[i], r, now, c) {
        assert BestOn(d, r, vs[i], now, None);
        if CanServe(d, vs[i], r, now, c) {
          var pi, di := ServesFits(d, vs[i], r, now, c);
        }
      }
    }
    if forall i, c :: 0 <= i < |vs| ==> !CanServe(d, vs[i], r, now, c) {
      forall i | 0 <= i < |vs| ensures BestOn(d, r, vs[i], now, None) {
        forall pi: nat, di: nat ensures !Fits(d, vs[i], r, now, pi, di) {
          if Fits(d, vs[i], r, now, pi, di) {
            FitsServes(d, vs[i], r, now, pi, di);
          }
        }
      }
    }
  }

  /** No way to serve the request on vehicle `v` costs less than `cost`, or, if `strict`, as little. */
  ghost predicate NoneCheaper(d: Distance, v: VehicleState, r: RequestState, now: real, cost: real, strict: bool) {
    forall c, other :: CanServe(d, v, r, now, c) && Costs(d, v, c, other) ==> cost < other || (!strict && cost == other)
  }

  /** The plan found is a way to serve the request on one of the vehicles, costs what it says, and is the cheapest of
      all; the vehicles listed before it have none as cheap. */
  lemma PlanIsCheapest(d: Distance, r: RequestState, vs: seq<VehicleState>, now: real, plan: Plan) returns (i: nat)
    requires forall j :: 0 <= j < |vs| ==> Fresh(vs[j].route, r.id)
    requires Winner(d, r, vs, now, Some(plan))
    ensures i < |vs| && plan.vehicleId == vs[i].id && plan.expectedVersion == vs[i].version
    ensures CanServe(d, vs[i], r, now, plan.newRoute) && Costs(d, vs[i], plan.newRoute, plan.addedCost)
    ensures forall j :: 0 <= j < |vs| ==> NoneCheaper(d, vs[j], r, now, plan.addedCost, j < i)
  {
    i :| WinnerAt(d, r, vs, now, plan, i);
    var pi, di := plan.pickupIndex, plan.dropoffIndex - 1;
    FitsServes(d, vs[i], r, now, pi, di);
    CostsIff(d, vs[i], r, pi, di, plan.addedCost);
    forall j | 0 <= j < |vs| ensures NoneCheaper(d, vs[j], r, now, plan.addedCost, j < i) {
      assert Unbeaten(d, r, vs[j], now, plan.addedCost, j < i);
      UnbeatenIsCheapest(d, vs[j], r, now, plan.addedCost, j < i);
    }
  }

  /** On its own vehicle the plan is the first of the cheapest, in the order in which placements are tried: pickups from
      the front, and dropoffs from the front for each; its two new stops are where it says. */
  lemma PlanIsFirst(d: Distance, r: RequestState, v: VehicleState, now: real, plan: Plan, pi: nat, di: nat)
    requires Fresh(v.route, r.id) && BestOn(d, r, v, now, Some(plan))
    ensures plan.pickupIndex < plan.dropoffIndex < |plan.newRoute|
    ensures plan.newRoute[plan.pickupIndex].requestId == plan.newRoute[plan.dropoffIndex].requestId == r.id
    ensures pi <= di <= |v.route| && (pi < plan.pickupIndex || (pi == plan.pickupIndex && di + 1 < plan.dropoffIndex)) ==>
              NoneCheaperBy(d, v, r, now, plan.addedCost,
                            Placed(v.route, plan.newRoute[plan.pickupIndex], plan.newRoute[plan.dropoffIndex], pi, di))
  {
    var p, q := r.StopFor(d, Pickup), r.StopFor(d, Dropoff);
    assert plan.newRoute == Placed(v.route, p, q, plan.pickupIndex, plan.dropoffIndex - 1);
    assert plan.newRoute[plan.pickupIndex] == p && plan.newRoute[plan.dropoffIndex] == q;
    if pi <= di <= |v.route| && TriedBefore(pi, di, plan.pickupIndex, plan.dropoffIndex - 1) {
      FitsServes(d, v, r, now, pi, di);
      CostsIff(d, v, r, pi, di, Added(d, v, r, pi, di));
      forall other ensures Costs(d, v, Candidate(d, v, r, pi, di), other) <==> other == Added(d, v, r, pi, di) {
        CostsIff(d, v, r, pi, di, other);
      }
    }
  }

  /** If the vehicle can serve the request by route `c`, that costs more than `cost`. */
  ghost predicate NoneCheaperBy(d: Distance, v: VehicleState, r: RequestState, now: real, cost: real, c: seq<Stop>) {
    forall other :: CanServe(d, v, r, now, c) && Costs(d, v, c, other) ==> cost < other
  }

  lemma UnbeatenIsCheapest(d: Distance, v: VehicleState, r: RequestState, now: real, cost: real, strict: bool)
    requires Fresh(v.route, r.id) && Unbeaten(d, r, v, now, cost, strict)
    ensures NoneCheaper(d, v, r, now, cost, strict)
  {
    forall c, other | CanServe(d, v, r, now, c) && Costs(d, v, c, other)
      ensures cost < other || (!strict && cost == other)
    {
      var pi, di := ServesFits(d, v, r, now, c);
      CostsIff(d, v, r, pi, di, other);
    }
  }
}
