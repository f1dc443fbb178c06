/** The dispatch engine as it runs (insertion.py): loops over stop objects,
    proved against the descriptions in `Schedule` and `Insertion`. */
module Dispatch {
  import opened Geo
  import opened Models
  import opened Schedule
  import opened Insertion

  /** A plan over stop objects. */
  datatype InsertionPlan = InsertionPlan(
    vehicleId: int,
    pickupIndex: nat,
    dropoffIndex: nat,
    addedCost: real,
    newRoute: seq<RouteStop>,
    expectedVersion: nat)
  {
    ghost function View(): Plan
      reads (set s | s in newRoute)`boardedAt
    {
      Plan(vehicleId, pickupIndex, dropoffIndex, addedCost, Views(newRoute), expectedVersion)
    }
  }

  ghost function PlanView(plan: Option<InsertionPlan>): Option<Plan>
    reads (set s | plan.Some? && s in plan.value.newRoute)`boardedAt
  {
    match plan
    case None => None
    case Some(p) => Some(p.View())
  }

  lemma ViewsInsertAt(route: seq<RouteStop>, i: nat, x: RouteStop)
    requires i <= |route|
    ensures Views(InsertAt(route, i, x)) == InsertAt(Views(route), i, x.View())
  {
  }

  lemma PlacedEnds<T>(route: seq<T>, p: T, q: T, pi: nat, di: nat)
    requires pi <= di <= |route|
    ensures Placed(route, p, q, pi, di)[pi] == p && Placed(route, p, q, pi, di)[di + 1] == q
  {
  }

  lemma ViewsPlaced(route: seq<RouteStop>, p: RouteStop, q: RouteStop, pi: nat, di: nat)
    requires pi <= di <= |route|
    ensures Views(Placed(route, p, q, pi, di)) == Placed(Views(route), p.View(), q.View(), pi, di)
  {
    ViewsInsertAt(route, pi, p);
    ViewsInsertAt(InsertAt(route, pi, p), di + 1, q);
  }

  // ---------------------------------------------------------------- the state of the search loops

  /** `result` is the best of the placements tried before (pi, di). */
  ghost predicate BestSoFar(d: Distance, r: RequestState, v: VehicleState, now: real, result: Option<Plan>,
                            pi: nat, di: nat)
  {
    match result
    case None => forall a: nat, b: nat :: TriedBefore(a, b, pi, di) ==> !Fits(d, v, r, now, a, b)
    case Some(plan) =>
      && plan.dropoffIndex > 0
      && TriedBefore(plan.pickupIndex, plan.dropoffIndex - 1, pi, di)
      && Fits(d, v, r, now, plan.pickupIndex, plan.dropoffIndex - 1)
      && PlanFor(d, r, v, plan, plan.pickupIndex, plan.dropoffIndex - 1)
      && (forall a: nat, b: nat :: TriedBefore(a, b, pi, di) && Fits(d, v, r, now, a, b) ==>
            && plan.addedCost <= Added(d, v, r, a, b)
            && (TriedBefore(a, b, plan.pickupIndex, plan.dropoffIndex - 1) ==> plan.addedCost < Added(d, v, r, a, b)))
  }

  ghost function PlanAt(d: Distance, r: RequestState, v: VehicleState, pi: nat, di: nat): Plan
    requires pi <= di <= |v.route|
  {
    Plan(v.id, pi, di + 1, Added(d, v, r, pi, di), Candidate(d, v, r, pi, di), v.version)
  }

  lemma TriedNext(a: nat, b: nat, pi: nat, di: nat)
    ensures TriedBefore(a, b, pi, di + 1) <==> TriedBefore(a, b, pi, di) || (a == pi && b == di)
  {
  }

  lemma BestKept(d: Distance, r: RequestState, v: VehicleState, now: real, best: Option<Plan>, pi: nat, di: nat)
    requires pi <= di <= |v.route| && BestSoFar(d, r, v, now, best, pi, di)
    requires Fits(d, v, r, now, pi, di) ==> best.Some? && best.value.addedCost <= Added(d, v, r, pi, di)
    ensures BestSoFar(d, r, v, now, best, pi, di + 1)
  {
    forall a: nat, b: nat ensures TriedBefore(a, b, pi, di + 1) <==> TriedBefore(a, b, pi, di) || (a == pi && b == di) {
      TriedNext(a, b, pi, di);
    }
  }

  lemma BestReplaced(d: Distance, r: RequestState, v: VehicleState, now: real, was: Option<Plan>, pi: nat, di: nat)
    requires Fits(d, v, r, now, pi, di) && BestSoFar(d, r, v, now, was, pi, di)
    requires was.None? || Added(d, v, r, pi, di) < was.value.addedCost
    ensures BestSoFar(d, r, v, now, Some(PlanAt(d, r, v, pi, di)), pi, di + 1)
  {
  }

  /** Trying placement (pi, di): it replaces the best so far only if it is strictly cheaper. */
  lemma BestStep(d: Distance, r: RequestState, v: VehicleState, now: real, was: Option<Plan>, pi: nat, di: nat)
    returns (best: Option<Plan>)
    requires pi <= di <= |v.route| && BestSoFar(d, r, v, now, was, pi, di)
    ensures best == if Fits(d, v, r, now, pi, di) && (was.None? || Added(d, v, r, pi, di) < was.value.addedCost)
                    then Some(PlanAt(d, r, v, pi, di)) else was
    ensures BestSoFar(d, r, v, now, best, pi, di + 1)
  {
    if Fits(d, v, r, now, pi, di) && (was.None? || Added(d, v, r, pi, di) < was.value.addedCost) {
      best := Some(PlanAt(d, r, v, pi, di));
      BestReplaced(d, r, v, now, was, pi, di);
    } else {
      best := was;
      BestKept(d, r, v, now, was, pi, di);
    }
  }

  lemma BestNextRow(d: Distance, r: RequestState, v: VehicleState, now: real, result: Option<Plan>, pi: nat)
    requires BestSoFar(d, r, v, now, result, pi, |v.route| + 1)
    ensures BestSoFar(d, r, v, now, result, pi + 1, pi + 1)
  {
  }

  lemma BestComplete(d: Distance, r: RequestState, v: VehicleState, now: real, result: Option<Plan>)
    requires BestSoFar(d, r, v, now, result, |v.route| + 1, |v.route| + 1)
    ensures BestOn(d, r, v, now, result)
  {
    forall a: nat, b: nat | Fits(d, v, r, now, a, b)
      ensures TriedBefore(a, b, |v.route| + 1, |v.route| + 1)
    {
    }
  }

  /** The winner of the first `n` vehicles stays the winner if vehicle `n` offers nothing cheaper. */
  lemma WinnerKept(d: Distance, r: RequestState, vs: seq<VehicleState>, n: nat, now: real, best: Option<Plan>,
                   plan: Option<Plan>)
    requires n < |vs| && Winner(d, r, vs[..n], now, best) && BestOn(d, r, vs[n], now, plan)
    requires plan.Some? ==> best.Some? && best.value.addedCost <= plan.value.addedCost
    ensures Winner(d, r, vs[..n + 1], now, best)
  {
    if best.Some? {
      var i: nat :| WinnerAt(d, r, vs[..n], now, best.value, i);
      forall j | 0 <= j < n + 1 ensures Unbeaten(d, r, vs[j], now, best.value.addedCost, j < i) {
        if j < n {
          assert Unbeaten(d, r, vs[..n][j], now, best.value.addedCost, j < i);
        } else if plan.Some? {
          assert Unbeaten(d, r, vs[n], now, plan.value.addedCost, false);
        }
      }
      assert WinnerAt(d, r, vs[..n + 1], now, best.value, i);
    } else {
      forall j | 0 <= j < n + 1 ensures BestOn(d, r, vs[j], now, None) {
        assert j < n ==> vs[..n][j] == vs[j];
      }
    }
  }

  /** A strictly cheaper plan on vehicle `n` takes over. */
  lemma WinnerReplaced(d: Distance, r: RequestState, vs: seq<VehicleState>, n: nat, now: real,
                       best: Option<Plan>, plan: Option<Plan>)
    requires n < |vs| && Winner(d, r, vs[..n], now, best) && BestOn(d, r, vs[n], now, plan)
    requires plan.Some? && (best.Some? ==> plan.value.addedCost < best.value.addedCost)
    ensures Winner(d, r, vs[..n + 1], now, plan)
  {
    forall j | 0 <= j < n + 1 ensures Unbeaten(d, r, vs[j], now, plan.value.addedCost, j < n) {
      if j < n {
        if best.Some? {
          var i: nat :| WinnerAt(d, r, vs[..n], now, best.value, i);
          assert Unbeaten(d, r, vs[..n][j], now, best.value.addedCost, j < i);
        } else {
          assert BestOn(d, r, vs[..n][j], now, None);
        }
      }
    }
    assert WinnerAt(d, r, vs[..n + 1], now, plan.value, n);
  }

  lemma WinnerStep(d: Distance, r: RequestState, vs: seq<VehicleState>, n: nat, now: real, was: Option<Plan>,
                   plan: Option<Plan>)
    returns (best: Option<Plan>)
    requires n < |vs| && Winner(d, r, vs[..n], now, was) && BestOn(d, r, vs[n], now, plan)
    ensures best == if plan.Some? && (was.None? || plan.value.addedCost < was.value.addedCost) then plan else was
    ensures Winner(d, r, vs[..n + 1], now, best)
  {
    if plan.Some? && (was.None? || plan.value.addedCost < was.value.addedCost) {
      WinnerReplaced(d, r, vs, n, now, was, plan);
      best := plan;
    } else {
      WinnerKept(d, r, vs, n, now, was, plan);
      best := was;
    }
  }

  // ---------------------------------------------------------------- the state of the feasibility scan

  /** The dictionary the scan keeps: the arrival time at each request's last pickup so far. */
  ghost predicate PickupTimes(d: Distance, loc: Point, now: real, route: seq<Stop>, k: nat, times: map<int, real>)
    requires k <= |route|
  {
    forall id: int ::
      match LastPickup(route, id, k)
      case None => id !in times
      case Some(j) => id in times && times[id] == Clock(d, loc, now, route, j + 1)
  }

  ghost predicate FeasibleUpTo(d: Distance, loc: Point, onboard: int, capacity: nat, now: real, route: seq<Stop>,
                               k: nat)
    requires k <= |route|
  {
    forall j :: 0 <= j < k ==> OnTime(d, loc, now, route, j) && HasSeats(onboard, capacity, route, j)
  }

  lemma PickupRecorded(d: Distance, loc: Point, now: real, route: seq<Stop>, k: nat, times: map<int, real>)
    requires k < |route| && route[k].stopType.Pickup? && PickupTimes(d, loc, now, route, k, times)
    ensures PickupTimes(d, loc, now, route, k + 1, times[route[k].requestId := Clock(d, loc, now, route, k + 1)])
  {
    forall id: int ensures id != route[k].requestId ==> LastPickup(route, id, k + 1) == LastPickup(route, id, k) {
    }
  }

  lemma DropoffSkipped(d: Distance, loc: Point, now: real, route: seq<Stop>, k: nat, times: map<int, real>)
    requires k < |route| && route[k].stopType.Dropoff? && PickupTimes(d, loc, now, route, k, times)
    ensures PickupTimes(d, loc, now, route, k + 1, times)
    ensures BoardTime(d, loc, now, route, k) ==
            if route[k].requestId in times then Some(times[route[k].requestId]) else route[k].boardedAt
  {
    forall id: int ensures LastPickup(route, id, k + 1) == LastPickup(route, id, k) {
    }
    assert LastPickup(route, route[k].requestId, k + 1) == LastPickup(route, route[k].requestId, k);
  }

  // ---------------------------------------------------------------- the engine

  /** The plan's route is the vehicle's own stop objects and two new ones. */
  twostate predicate ExtendsBy(new plan: InsertionPlan, route: seq<RouteStop>)
  {
    && 0 < plan.dropoffIndex && plan.pickupIndex < plan.dropoffIndex <= |route| + 1
    && |plan.newRoute| == |route| + 2
    && var p, q := plan.newRoute[plan.pickupIndex], plan.newRoute[plan.dropoffIndex];
    && fresh(p) && fresh(q) && p != q
    && plan.newRoute == Placed(route, p, q, plan.pickupIndex, plan.dropoffIndex - 1)
  }

  /** The plan that makes a described placement with the two given stop objects. */
  ghost function WithObjects(view: Option<Plan>, route: seq<RouteStop>, pickup: RouteStop, dropoff: RouteStop)
    : Option<InsertionPlan>
  {
    match view
    case None => None
    case Some(w) =>
      if w.pickupIndex < w.dropoffIndex <= |route| + 1 then
        Some(InsertionPlan(w.vehicleId, w.pickupIndex, w.dropoffIndex, w.addedCost,
                           Placed(route, pickup, dropoff, w.pickupIndex, w.dropoffIndex - 1), w.expectedVersion))
      else None
  }

  ghost function VehicleViews(vs: seq<Vehicle>): (r: seq<VehicleState>)
    reads vs, (set v, s | v in vs && s in v.route :: s)
    ensures |r| == |vs|
    ensures forall i :: 0 <= i < |vs| ==> r[i] == vs[i].View()
  {
    seq(|vs|, (i: int) requires 0 <= i < |vs| reads vs, (set v, s | v in vs && s in v.route :: s) => vs[i].View())
  }

  class DispatchEngine {
    const d: Distance
    const maxWaitDefault: real

    constructor (d: Distance, maxWaitDefault: real)
      ensures this.d == d
    {
      this.d, this.maxWaitDefault := d, maxWaitDefault;
    }

    /** `_feasible`.  The planned arrival times are written to the stops even if the answer is no. */
    method Feasible(route: seq<RouteStop>, vehicle: Vehicle, now: real) returns (ok: bool)
      modifies (set s | s in route)`eta
      ensures ok <==> Schedule.Feasible(d, vehicle.location, vehicle.onboard, vehicle.capacity, now, Views(route))
    {
      var load, t, prevLoc := vehicle.onboard, now, vehicle.location;
      var pickupTimes: map<int, real> := map[];
      ghost var views, loc := Views(route), vehicle.location;
      for k := 0 to |route|
        invariant Views(route) == views
        invariant t == Clock(d, loc, now, views, k)
        invariant load == Load(vehicle.onboard, views, k)
        invariant prevLoc == Before(loc, views, k)
        invariant PickupTimes(d, loc, now, views, k, pickupTimes)
        invariant FeasibleUpTo(d, loc, vehicle.onboard, vehicle.capacity, now, views, k)
      {
        var stop := route[k];
        assert views[k] == stop.View();
        t := t + TravelTime(d, prevLoc, stop.location);
        stop.eta := Some(t);
        prevLoc := stop.location;
        if stop.stopType == Pickup {
          load := load + stop.partySize;
          if load > vehicle.capacity {
            assert !HasSeats(vehicle.onboard, vehicle.capacity, views, k);
            return false;
          }
          PickupRecorded(d, loc, now, views, k, pickupTimes);
          pickupTimes := pickupTimes[stop.requestId := t];
          if t - stop.requestTime > stop.maxWait {
            assert !OnTime(d, loc, now, views, k);
            return false;
          }
        } else {
          load := load - stop.partySize;
          DropoffSkipped(d, loc, now, views, k, pickupTimes);
          var board := if stop.requestId in pickupTimes then Some(pickupTimes[stop.requestId]) else stop.boardedAt;
          if board.Some? && stop.directTime > 0.0 {
            if t - board.value > stop.directTime * stop.maxDetour {
              assert !OnTime(d, loc, now, views, k);
              return false;
            }
          }
        }
        assert OnTime(d, loc, now, views, k);
      }
      return true;
    }

    /** `_route_travel_time`. */
    method RouteTravelTime(start: Point, route: seq<RouteStop>) returns (total: real)
      ensures total == RouteTime(d, start, Views(route))
    {
      total := 0.0;
      var prev := start;
      ghost var views := Views(route);
      for k := 0 to |route|
        invariant total == Clock(d, start, 0.0, views, k)
        invariant prev == Before(start, views, k)
      {
        total := total + TravelTime(d, prev, route[k].location);
        prev := route[k].location;
      }
    }

    /** The vehicle's route with the two new stops put in. */
    method MakeCandidate(vehicle: Vehicle, pickup: RouteStop, dropoff: RouteStop, pi: nat, di: nat, ghost r: RequestState,
                         ghost v: VehicleState)
      returns (candidate: seq<RouteStop>)
      requires pi <= di <= |vehicle.route| && vehicle.View() == v
      requires pickup.View() == r.StopFor(d, Pickup) && dropoff.View() == r.StopFor(d, Dropoff)
      ensures candidate == Placed(vehicle.route, pickup, dropoff, pi, di)
      ensures Views(candidate) == Candidate(d, v, r, pi, di)
      ensures forall s :: s in candidate ==> s in vehicle.route || s == pickup || s == dropoff
    {
      candidate := InsertAt(vehicle.route, pi, pickup);
      candidate := InsertAt(candidate, di + 1, dropoff);
      ViewsPlaced(vehicle.route, pickup, dropoff, pi, di);
    }

    /** The body of the placement loops: the plan for one placement, if it is acceptable. */
    method TryPlacement(vehicle: Vehicle, now: real, baseCost: real, pickup: RouteStop, dropoff: RouteStop,
                        pi: nat, di: nat, ghost r: RequestState, ghost v: VehicleState)
      returns (plan: Option<InsertionPlan>)
      requires pi <= di <= |vehicle.route| && vehicle.View() == v
      requires pickup.View() == r.StopFor(d, Pickup) && dropoff.View() == r.StopFor(d, Dropoff)
      requires baseCost == RouteTime(d, v.location, v.route)
      modifies (set s | s in vehicle.route)`eta, pickup`eta, dropoff`eta
      ensures vehicle.View() == v
      ensures pickup.View() == r.StopFor(d, Pickup) && dropoff.View() == r.StopFor(d, Dropoff)
      ensures plan.Some? <==> Fits(d, v, r, now, pi, di)
      ensures plan.Some? ==> plan.value == InsertionPlan(v.id, pi, di + 1, Added(d, v, r, pi, di),
                                             Placed(vehicle.route, pickup, dropoff, pi, di), v.version)
    {
      var candidate := MakeCandidate(vehicle, pickup, dropoff, pi, di, r, v);
      var ok := Feasible(candidate, vehicle, now);
      if !ok {
        return None;
      }
      var newCost := RouteTravelTime(vehicle.location, candidate);
      return Some(InsertionPlan(vehicle.id, pi, di + 1, newCost - baseCost, candidate, vehicle.version));
    }

    /** The inner placement loop: every dropoff position for one pickup position. */
    method SearchRow(vehicle: Vehicle, now: real, baseCost: real, pickup: RouteStop, dropoff: RouteStop, pi: nat,
                     was: Option<InsertionPlan>, ghost wasView: Option<Plan>, ghost r: RequestState, ghost v: VehicleState)
      returns (best: Option<InsertionPlan>, ghost bestView: Option<Plan>)
      requires pi <= |vehicle.route| && vehicle.View() == v
      requires pickup.View() == r.StopFor(d, Pickup) && dropoff.View() == r.StopFor(d, Dropoff)
      requires baseCost == RouteTime(d, v.location, v.route)
      requires BestSoFar(d, r, v, now, wasView, pi, pi)
      requires was == WithObjects(wasView, vehicle.route, pickup, dropoff)
      modifies (set s | s in vehicle.route)`eta, pickup`eta, dropoff`eta
      ensures vehicle.View() == v
      ensures pickup.View() == r.StopFor(d, Pickup) && dropoff.View() == r.StopFor(d, Dropoff)
      ensures BestSoFar(d, r, v, now, bestView, pi + 1, pi + 1)
      ensures best == WithObjects(bestView, vehicle.route, pickup, dropoff)
    {
      best, bestView := was, wasView;
      for di := pi to |vehicle.route| + 1
        invariant vehicle.View() == v
        invariant pickup.View() == r.StopFor(d, Pickup) && dropoff.View() == r.StopFor(d, Dropoff)
        invariant BestSoFar(d, r, v, now, bestView, pi, di)
        invariant best == WithObjects(bestView, vehicle.route, pickup, dropoff)
      {
        best, bestView := SearchCell(vehicle, now, baseCost, pickup, dropoff, pi, di, best, bestView, r, v);
      }
      BestNextRow(d, r, v, now, bestView, pi);
    }

    /** One placement, against the best so far. */
    method SearchCell(vehicle: Vehicle, now: real, baseCost: real, pickup: RouteStop, dropoff: RouteStop, pi: nat, di: nat,
                      was: Option<InsertionPlan>, ghost wasView: Option<Plan>, ghost r: RequestState, ghost v: VehicleState)
      returns (best: Option<InsertionPlan>, ghost bestView: Option<Plan>)
      requires pi <= di <= |vehicle.route| && vehicle.View() == v
      requires pickup.View() == r.StopFor(d, Pickup) && dropoff.View() == r.StopFor(d, Dropoff)
      requires baseCost == RouteTime(d, v.location, v.route)
      requires BestSoFar(d, r, v, now, wasView, pi, di)
      requires was == WithObjects(wasView, vehicle.route, pickup, dropoff)
      modifies (set s | s in vehicle.route)`eta, pickup`eta, dropoff`eta
      ensures vehicle.View() == v
      ensures pickup.View() == r.StopFor(d, Pickup) && dropoff.View() == r.StopFor(d, Dropoff)
      ensures BestSoFar(d, r, v, now, bestView, pi, di + 1)
      ensures best == WithObjects(bestView, vehicle.route, pickup, dropoff)
    {
      best := was;
      var plan := TryPlacement(vehicle, now, baseCost, pickup, dropoff, pi, di, r, v);
      bestView := BestStep(d, r, v, now, wasView, pi, di);
      if plan.Some? && (best.None? || plan.value.addedCost < best.value.addedCost) {
        best := plan;
      }
    }

    /** The placement loops of `_best_insertion_for_vehicle`, given the two new stops. */
    method SearchPlacements(vehicle: Vehicle, now: real, pickup: RouteStop, dropoff: RouteStop, ghost r: RequestState)
      returns (best: Option<InsertionPlan>, ghost bestView: Option<Plan>)
      requires pickup.View() == r.StopFor(d, Pickup) && dropoff.View() == r.StopFor(d, Dropoff)
      modifies (set s | s in vehicle.route)`eta, pickup`eta, dropoff`eta
      ensures BestOn(d, r, vehicle.View(), now, bestView)
      ensures best == WithObjects(bestView, vehicle.route, pickup, dropoff)
    {
      ghost var v := vehicle.View();
      var baseCost := RouteTravelTime(vehicle.location, vehicle.route);
      best, bestView := None, None;
      for pi := 0 to |vehicle.route| + 1
        invariant vehicle.View() == v
        invariant pickup.View() == r.StopFor(d, Pickup) && dropoff.View() == r.StopFor(d, Dropoff)
        invariant BestSoFar(d, r, v, now, bestView, pi, pi)
        invariant best == WithObjects(bestView, vehicle.route, pickup, dropoff)
      {
        best, bestView := SearchRow(vehicle, now, baseCost, pickup, dropoff, pi, best, bestView, r, v);
      }
      BestComplete(d, r, v, now, bestView);
    }

    /** `_best_insertion_for_vehicle`. */
    method BestInsertionForVehicle(request: Request, vehicle: Vehicle, now: real)
      returns (best: Option<InsertionPlan>)
      modifies (set s | s in vehicle.route)`eta
      ensures BestOn(d, request.View(), vehicle.View(), now, PlanView(best))
      ensures best.Some? ==> ExtendsBy(best.value, vehicle.route)
    {
      var pickup, dropoff := NewStops(request);
      best := BestWith(vehicle, now, pickup, dropoff, request.View());
      if best.Some? {
        PlacedEnds(vehicle.route, pickup, dropoff, best.value.pickupIndex, best.value.dropoffIndex - 1);
      }
    }

    /** The best placement of two given stops. */
    method BestWith(vehicle: Vehicle, now: real, pickup: RouteStop, dropoff: RouteStop, ghost r: RequestState)
      returns (best: Option<InsertionPlan>)
      requires pickup.View() == r.StopFor(d, Pickup) && dropoff.View() == r.StopFor(d, Dropoff)
      modifies (set s | s in vehicle.route)`eta, pickup`eta, dropoff`eta
      ensures BestOn(d, r, vehicle.View(), now, PlanView(best))
      ensures best.Some? ==>
                && best.value.pickupIndex < best.value.dropoffIndex <= |vehicle.route| + 1
                && best.value.newRoute == Placed(vehicle.route, pickup, dropoff, best.value.pickupIndex,
                                                 best.value.dropoffIndex - 1)
    {
      ghost var bestView;
      best, bestView := SearchPlacements(vehicle, now, pickup, dropoff, r);
      if best.Some? {
        ViewsPlaced(vehicle.route, pickup, dropoff, best.value.pickupIndex, best.value.dropoffIndex - 1);
      }
      assert PlanView(best) == bestView;
    }

    /** The two stops of a new passenger. */
    method NewStops(request: Request) returns (pickup: RouteStop, dropoff: RouteStop)
      ensures fresh(pickup) && fresh(dropoff) && pickup != dropoff
      ensures pickup.View() == request.View().StopFor(d, Pickup) && dropoff.View() == request.View().StopFor(d, Dropoff)
    {
      var direct := TravelTime(d, request.origin, request.destination);
      pickup := new RouteStop(request.id, Pickup, request.origin, request.partySize, request.requestTime,
                              request.maxWait, direct, request.maxDetourFactor);
      dropoff := new RouteStop(request.id, Dropoff, request.destination, request.partySize, request.requestTime,
                               request.maxWait, direct, request.maxDetourFactor);
    }

    /** `dispatch`: the cheapest acceptable placement over all candidate vehicles.  `at` is the
        position of the vehicle the plan is for. */
    method Dispatch(request: Request, vehicles: seq<Vehicle>, now: real)
      returns (best: Option<InsertionPlan>, ghost at: nat)
      modifies (set v, s | v in vehicles && s in v.route :: s)`eta
      ensures Winner(d, request.View(), VehicleViews(vehicles), now, PlanView(best))
      ensures VehicleViews(vehicles) == old(VehicleViews(vehicles))
      ensures best.Some? ==> at < |vehicles| && ExtendsBy(best.value, vehicles[at].route)
                             && best.value.vehicleId == vehicles[at].id
    {
      best, at := None, 0;
      ghost var r, vs := request.View(), VehicleViews(vehicles);
      for i := 0 to |vehicles|
        invariant VehicleViews(vehicles) == vs
        invariant Winner(d, r, vs[..i], now, PlanView(best))
        invariant best.Some? ==> at < i && ExtendsBy(best.value, vehicles[at].route)
        invariant best.Some? ==> best.value.vehicleId == vehicles[at].id
      {
        ghost var better;
        best, better := TryVehicle(request, vehicles, i, now, best, vs);
        if better {
          at := i;
        }
      }
      assert vs[..|vehicles|] == vs;
    }

    /** One more candidate, against the best so far. */
    method TryVehicle(request: Request, vehicles: seq<Vehicle>, i: nat, now: real, was: Option<InsertionPlan>,
                      ghost vs: seq<VehicleState>)
      returns (best: Option<InsertionPlan>, ghost better: bool)
      requires i < |vehicles| && VehicleViews(vehicles) == vs && Winner(d, request.View(), vs[..i], now, PlanView(was))
      modifies (set s | s in vehicles[i].route)`eta
      ensures VehicleViews(vehicles) == vs && Winner(d, request.View(), vs[..i + 1], now, PlanView(best))
      ensures if better then best.Some? && ExtendsBy(best.value, vehicles[i].route) && best.value.vehicleId == vehicles[i].id
              else best == was
    {
      ghost var r, wasView := request.View(), PlanView(was);
      var plan := BestInsertionForVehicle(request, vehicles[i], now);
      ghost var bestView := WinnerStep(d, r, vs, i, now, wasView, PlanView(plan));
      best, better := was, false;
      if plan.Some? && (best.None? || plan.value.addedCost < best.value.addedCost) {
        best, better := plan, true;
      }
      assert PlanView(best) == bestView;
    }
  }
}
