/** The insertion search (insertion.py): which placements it tries, when a
    placement is acceptable, and which one it returns. */
module Insertion {
  import opened Geo
  import opened Models
  import opened Schedule

  // ---------------------------------------------------------------- placements

  /** The route with pickup `p` put before stop `pi` and dropoff `q` before stop `di`. */
  function Placed<T>(route: seq<T>, p: T, q: T, pi: nat, di: nat): (r: seq<T>)
    requires pi <= di <= |route|
    ensures |r| == |route| + 2
  {
    InsertAt(InsertAt(route, pi, p), di + 1, q)
  }

  function Candidate(d: Distance, v: VehicleState, r: RequestState, pi: nat, di: nat): seq<Stop>
    requires pi <= di <= |v.route|
  {
    Placed(v.route, r.StopFor(d, Pickup), r.StopFor(d, Dropoff), pi, di)
  }

  /** The driving time of a route, `_route_travel_time`. */
  function RouteTime(d: Distance, loc: Point, route: seq<Stop>): real {
    Clock(d, loc, 0.0, route, |route|)
  }

  function Added(d: Distance, v: VehicleState, r: RequestState, pi: nat, di: nat): real
    requires pi <= di <= |v.route|
  {
    RouteTime(d, v.location, Candidate(d, v, r, pi, di)) - RouteTime(d, v.location, v.route)
  }

  ghost predicate Fits(d: Distance, v: VehicleState, r: RequestState, now: real, pi: nat, di: nat) {
    pi <= di <= |v.route| && Feasible(d, v.location, v.onboard, v.capacity, now, Candidate(d, v, r, pi, di))
  }

  /** No stop of request `id` is on the route. */
  predicate Fresh(route: seq<Stop>, id: int) {
    forall k :: 0 <= k < |route| ==> route[k].requestId != id
  }

  /** The stops of `id`, or all others, in route order. */
  function Select(route: seq<Stop>, id: int, mine: bool): seq<Stop> {
    if route == [] then []
    else (if (route[0].requestId == id) == mine then [route[0]] else []) + Select(route[1..], id, mine)
  }

  lemma SelectCons(s: Stop, rest: seq<Stop>, id: int, mine: bool)
    ensures Select([s] + rest, id, mine) == (if (s.requestId == id) == mine then [s] else []) + Select(rest, id, mine)
  {
    assert ([s] + rest)[1..] == rest;
  }

  lemma {:induction false} SelectConcat(a: seq<Stop>, b: seq<Stop>, id: int, mine: bool)
    ensures Select(a + b, id, mine) == Select(a, id, mine) + Select(b, id, mine)
  {
    if a == [] {
      assert a + b == b;
    } else {
      var rest := a[1..] + b;
      assert a + b == [a[0]] + rest;
      SelectCons(a[0], rest, id, mine);
      SelectCons(a[0], a[1..], id, mine);
      assert a == [a[0]] + a[1..];
      SelectConcat(a[1..], b, id, mine);
    }
  }

  lemma {:induction false} SelectFresh(route: seq<Stop>, id: int)
    requires Fresh(route, id)
    ensures Select(route, id, false) == route && Select(route, id, true) == []
  {
    if route != [] {
      SelectFresh(route[1..], id);
    }
  }

  lemma PlacedPieces<T>(route: seq<T>, p: T, q: T, pi: nat, di: nat)
    requires pi <= di <= |route|
    ensures Placed(route, p, q, pi, di) == route[..pi] + [p] + route[pi..di] + [q] + route[di..]
  {
  }

  /** A route without stops of `id` is a route all of whose stops are others. */
  lemma {:induction false} SelectNone(route: seq<Stop>, id: int)
    requires Select(route, id, true) == []
    ensures Fresh(route, id) && Select(route, id, false) == route
  {
    if route != [] {
      SelectNone(route[1..], id);
    }
  }

  /** Splitting a route at its first stop of `id`. */
  lemma {:induction false} SplitAtFirst(route: seq<Stop>, id: int)
    returns (front: seq<Stop>, stop: Stop, rest: seq<Stop>)
    requires Select(route, id, true) != []
    ensures route == front + [stop] + rest
    ensures Select(route, id, true) == [stop] + Select(rest, id, true)
    ensures Select(route, id, false) == front + Select(rest, id, false)
  {
    if route[0].requestId == id {
      front, stop, rest := [], route[0], route[1..];
    } else {
      front, stop, rest := SplitAtFirst(route[1..], id);
      front := [route[0]] + front;
    }
  }

  /** The loops try exactly the routes that keep the other passengers' stops in order
      and serve the new request by its pickup followed by its dropoff. */
  lemma PlacementsAreExact(route: seq<Stop>, p: Stop, q: Stop, c: seq<Stop>)
    requires p.requestId == q.requestId && Fresh(route, p.requestId)
    ensures (exists pi: nat, di: nat :: pi <= di <= |route| && c == Placed(route, p, q, pi, di))
       <==> Select(c, p.requestId, false) == route && Select(c, p.requestId, true) == [p, q]
  {
    var id := p.requestId;
    forall pi: nat, di: nat | pi <= di <= |route| && c == Placed(route, p, q, pi, di)
      ensures Select(c, id, false) == route && Select(c, id, true) == [p, q]
    {
      SelectOfPlaced(route, p, q, pi, di);
    }
    if Select(c, id, false) == route && Select(c, id, true) == [p, q] {
      var i, j := FindPlacement(route, p, q, c);
      assert c == Placed(route, p, q, i, j);
    }
  }

  lemma FindPlacement(route: seq<Stop>, p: Stop, q: Stop, c: seq<Stop>) returns (pi: nat, di: nat)
    requires p.requestId == q.requestId
    requires Select(c, p.requestId, false) == route && Select(c, p.requestId, true) == [p, q]
    ensures pi <= di <= |route| && c == Placed(route, p, q, pi, di)
  {
    var id := p.requestId;
    var front, p', rest := SplitAtFirst(c, id);
    assert p' == [p, q][0] && Select(rest, id, true) == [p, q][1..] == [q];
    var middle, q', tail := SplitAtFirst(rest, id);
    assert q' == [q][0] && |Select(tail, id, true)| == 0;
    SelectNone(tail, id);
    pi, di := |front|, |front| + |middle|;
    Reassemble(front, p, middle, q, tail);
    assert c == front + [p] + (middle + [q] + tail);
  }

  lemma Reassemble<T>(front: seq<T>, p: T, middle: seq<T>, q: T, tail: seq<T>)
    ensures Placed(front + (middle + tail), p, q, |front|, |front| + |middle|)
         == front + [p] + (middle + [q] + tail)
  {
  }

  lemma SelectOne(s: Stop, id: int, mine: bool)
    ensures Select([s], id, mine) == if (s.requestId == id) == mine then [s] else []
  {
    assert [s][1..] == [];
  }

  lemma SelectFive(a: seq<Stop>, p: Stop, b: seq<Stop>, q: Stop, c: seq<Stop>, id: int, mine: bool)
    ensures Select(a + [p] + b + [q] + c, id, mine) ==
            Select(a, id, mine) + Select([p], id, mine) + Select(b, id, mine) + Select([q], id, mine)
            + Select(c, id, mine)
  {
    SelectConcat(a + [p] + b + [q], c, id, mine);
    SelectConcat(a + [p] + b, [q], id, mine);
    SelectConcat(a + [p], b, id, mine);
    SelectConcat(a, [p], id, mine);
  }

  lemma SelectPieces(a: seq<Stop>, p: Stop, b: seq<Stop>, q: Stop, c: seq<Stop>, id: int, mine: bool)
    requires Fresh(a, id) && Fresh(b, id) && Fresh(c, id) && p.requestId == q.requestId == id
    ensures Select(a + [p] + b + [q] + c, id, mine) == if mine then [p, q] else a + b + c
  {
    SelectFive(a, p, b, q, c, id, mine);
    SelectFresh(a, id);
    SelectFresh(b, id);
    SelectFresh(c, id);
    SelectOne(p, id, mine);
    SelectOne(q, id, mine);
    if mine {
      NothingAround(p, q);
    } else {
      NothingBetween(a, b, c);
    }
  }

  lemma NothingAround<T>(p: T, q: T)
    ensures [] + [p] + [] + [q] + [] == [p, q]
  {
  }

  lemma NothingBetween<T>(a: seq<T>, b: seq<T>, c: seq<T>)
    ensures a + [] + b + [] + c == a + b + c
  {
    assert a + [] == a;
    assert a + b + [] == a + b;
  }

  lemma SelectOfPlaced(route: seq<Stop>, p: Stop, q: Stop, pi: nat, di: nat)
    requires p.requestId == q.requestId && Fresh(route, p.requestId) && pi <= di <= |route|
    ensures Select(Placed(route, p, q, pi, di), p.requestId, false) == route
    ensures Select(Placed(route, p, q, pi, di), p.requestId, true) == [p, q]
  {
    var a, b, c := route[..pi], route[pi..di], route[di..];
    PlacedPieces(route, p, q, pi, di);
    assert Fresh(a, p.requestId) && Fresh(b, p.requestId) && Fresh(c, p.requestId);
    SelectPieces(a, p, b, q, c, p.requestId, true);
    SelectPieces(a, p, b, q, c, p.requestId, false);
    assert a + b + c == route;
  }

  // ---------------------------------------------------------------- heredity

  lemma PlacedUndone<T>(route: seq<T>, p: T, q: T, pi: nat, di: nat)
    requires pi <= di <= |route|
    ensures RemoveAt(Placed(route, p, q, pi, di), di + 1) == InsertAt(route, pi, p)
    ensures RemoveAt(InsertAt(route, pi, p), pi) == route
  {
  }

  lemma {:induction false} LoadInserted(onboard: int, route: seq<Stop>, i: nat, x: Stop, k: nat)
    requires i <= |route| && k <= |route| + 1
    ensures Load(onboard, InsertAt(route, i, x), k) ==
            if k <= i then Load(onboard, route, k)
            else if x.stopType.Pickup? then Load(onboard, route, k - 1) + x.partySize
            else Load(onboard, route, k - 1) - x.partySize
  {
    if k > 0 {
      LoadInserted(onboard, route, i, x, k - 1);
    }
  }

  /** A new passenger takes seats between the new stops and nowhere else. */
  lemma LoadPlaced(onboard: int, route: seq<Stop>, p: Stop, q: Stop, pi: nat, di: nat, k: nat)
    requires pi <= di <= |route| && k < |route|
    requires p.stopType.Pickup? && q.stopType.Dropoff? && p.partySize == q.partySize
    ensures Load(onboard, Placed(route, p, q, pi, di), Full(di + 1, Full(pi, k)) + 1) ==
            Load(onboard, route, k + 1) + if pi <= k < di then p.partySize else 0
  {
    LoadInserted(onboard, InsertAt(route, pi, p), di + 1, q, Full(di + 1, Full(pi, k)) + 1);
    LoadInserted(onboard, route, pi, p, Full(pi, k) + 1);
  }

  ghost predicate NewPair(route: seq<Stop>, p: Stop, q: Stop) {
    && p.stopType.Pickup? && q.stopType.Dropoff?
    && p.requestId == q.requestId && p.partySize == q.partySize
    && Fresh(route, p.requestId)
  }

  /** If a route with a new passenger keeps every promise, so did the route without. */
  lemma FeasibilityIsHereditary(d: Distance, loc: Point, onboard: int, capacity: nat, now: real,
                                route: seq<Stop>, p: Stop, q: Stop, pi: nat, di: nat)
    requires Metric(d) && pi <= di <= |route| && NewPair(route, p, q)
    requires Feasible(d, loc, onboard, capacity, now, Placed(route, p, q, pi, di))
    ensures Feasible(d, loc, onboard, capacity, now, route)
  {
    var full, half := Placed(route, p, q, pi, di), InsertAt(route, pi, p);
    PlacedUndone(route, p, q, pi, di);
    forall k | 0 <= k < |route|
      ensures OnTime(d, loc, now, route, k) && HasSeats(onboard, capacity, route, k)
    {
      OnTimeWithout(d, loc, now, full, di + 1, Full(pi, k));
      OnTimeWithout(d, loc, now, half, pi, k);
      LoadPlaced(onboard, route, p, q, pi, di, k);
      assert HasSeats(onboard, capacity, full, Full(di + 1, Full(pi, k)));
    }
  }

  lemma RouteTimeWithout(d: Distance, loc: Point, route: seq<Stop>, i: nat)
    requires Metric(d) && i < |route|
    ensures RouteTime(d, loc, RemoveAt(route, i)) <= RouteTime(d, loc, route)
  {
    SavedNonNegative(d, loc, 0.0, route, i, |route| - 1);
    assert d(Before(loc, route, |route| - 1), route[|route| - 1].location) >= 0.0;
  }

  lemma RouteTimeInserted(d: Distance, loc: Point, route: seq<Stop>, i: nat, x: Stop)
    requires Metric(d) && i <= |route|
    ensures RouteTime(d, loc, route) <= RouteTime(d, loc, InsertAt(route, i, x))
  {
    RouteTimeWithout(d, loc, InsertAt(route, i, x), i);
    assert RemoveAt(InsertAt(route, i, x), i) == route;
  }

  /** Taking on a passenger never shortens the route. */
  lemma AddedCostNonNegative(d: Distance, v: VehicleState, r: RequestState, pi: nat, di: nat)
    requires Metric(d) && pi <= di <= |v.route|
    ensures Added(d, v, r, pi, di) >= 0.0
  {
    var p, q := r.StopFor(d, Pickup), r.StopFor(d, Dropoff);
    RouteTimeInserted(d, v.location, v.route, pi, p);
    RouteTimeInserted(d, v.location, InsertAt(v.route, pi, p), di + 1, q);
  }

  // ---------------------------------------------------------------- the result of the search

  datatype Plan = Plan(
    vehicleId: int,
    pickupIndex: nat,
    dropoffIndex: nat,
    addedCost: real,
    newRoute: seq<Stop>,
    expectedVersion: nat)

  /** The order in which one vehicle's placements are tried. */
  predicate TriedBefore(pi: nat, di: nat, pi': nat, di': nat) {
    pi < pi' || (pi == pi' && di < di')
  }

  /** `plan` describes placement (pi, di) on vehicle `v`. */
  ghost predicate PlanFor(d: Distance, r: RequestState, v: VehicleState, plan: Plan, pi: nat, di: nat) {
    && pi <= di <= |v.route|
    && plan == Plan(v.id, pi, di + 1, Added(d, v, r, pi, di), Candidate(d, v, r, pi, di), v.version)
  }

  /** No acceptable placement on `v` is cheaper; with `strict`, none costs the same either. */
  ghost predicate Unbeaten(d: Distance, r: RequestState, v: VehicleState, now: real, cost: real, strict: bool) {
    forall pi: nat, di: nat :: Fits(d, v, r, now, pi, di) ==>
      if strict then cost < Added(d, v, r, pi, di) else cost <= Added(d, v, r, pi, di)
  }

  /** The best placement on one vehicle: none fits, or the first of the cheapest that fit. */
  ghost predicate BestOn(d: Distance, r: RequestState, v: VehicleState, now: real, result: Option<Plan>) {
    match result
    case None => forall pi: nat, di: nat :: !Fits(d, v, r, now, pi, di)
    case Some(plan) =>
      && plan.dropoffIndex > 0
      && Fits(d, v, r, now, plan.pickupIndex, plan.dropoffIndex - 1)
      && PlanFor(d, r, v, plan, plan.pickupIndex, plan.dropoffIndex - 1)
      && Unbeaten(d, r, v, now, plan.addedCost, false)
      && (forall pi: nat, di: nat ::
            Fits(d, v, r, now, pi, di) && TriedBefore(pi, di, plan.pickupIndex, plan.dropoffIndex - 1) ==>
            plan.addedCost < Added(d, v, r, pi, di))
  }

  /** The winner among several vehicles is vehicle `i`'s best. */
  ghost predicate WinnerAt(d: Distance, r: RequestState, vs: seq<VehicleState>, now: real, plan: Plan, i: nat) {
    && i < |vs|
    && BestOn(d, r, vs[i], now, Some(plan))
    && (forall j :: 0 <= j < |vs| ==> Unbeaten(d, r, vs[j], now, plan.addedCost, j < i))
  }

  ghost predicate Winner(d: Distance, r: RequestState, vs: seq<VehicleState>, now: real, result: Option<Plan>) {
    match result
    case None => forall j :: 0 <= j < |vs| ==> BestOn(d, r, vs[j], now, None)
    case Some(plan) => exists i: nat :: WinnerAt(d, r, vs, now, plan, i)
  }

  lemma BestOnIsUnique(d: Distance, r: RequestState, v: VehicleState, now: real, one: Plan, two: Plan)
    requires BestOn(d, r, v, now, Some(one)) && BestOn(d, r, v, now, Some(two))
    ensures one == two
  {
    BestIsNotLater(d, r, v, now, one, two);
    BestIsNotLater(d, r, v, now, two, one);
    assert one.pickupIndex == two.pickupIndex && one.dropoffIndex == two.dropoffIndex;
  }

  /** No winner is tried before another. */
  lemma BestIsNotLater(d: Distance, r: RequestState, v: VehicleState, now: real, one: Plan, two: Plan)
    requires BestOn(d, r, v, now, Some(one)) && BestOn(d, r, v, now, Some(two))
    ensures !TriedBefore(one.pickupIndex, one.dropoffIndex - 1, two.pickupIndex, two.dropoffIndex - 1)
  {
    assert Fits(d, v, r, now, one.pickupIndex, one.dropoffIndex - 1);
    assert Fits(d, v, r, now, two.pickupIndex, two.dropoffIndex - 1);
  }

  /** The cost of another vehicle's winner, against the cost of one that fits on `v`. */
  lemma BeatenBy(d: Distance, r: RequestState, v: VehicleState, now: real, plan: Plan, cost: real, strict: bool)
    requires BestOn(d, r, v, now, Some(plan)) && Unbeaten(d, r, v, now, cost, strict)
    ensures if strict then cost < plan.addedCost else cost <= plan.addedCost
  {
    assert Fits(d, v, r, now, plan.pickupIndex, plan.dropoffIndex - 1);
  }

  /** The description of the result leaves no choice. */
  lemma WinnerIsUnique(d: Distance, r: RequestState, vs: seq<VehicleState>, now: real,
                       one: Option<Plan>, two: Option<Plan>)
    requires Winner(d, r, vs, now, one) && Winner(d, r, vs, now, two)
    ensures one == two
  {
    if one.Some? && two.Some? {
      var i: nat :| WinnerAt(d, r, vs, now, one.value, i);
      var j: nat :| WinnerAt(d, r, vs, now, two.value, j);
      BeatenBy(d, r, vs[i], now, one.value, two.value.addedCost, i < j);
      BeatenBy(d, r, vs[j], now, two.value, one.value.addedCost, j < i);
      if i == j {
        BestOnIsUnique(d, r, vs[i], now, one.value, two.value);
      }
    } else if one.Some? {
      WinnerFits(d, r, vs, now, one.value);
    } else if two.Some? {
      WinnerFits(d, r, vs, now, two.value);
    }
  }

  lemma WinnerFits(d: Distance, r: RequestState, vs: seq<VehicleState>, now: real, plan: Plan)
    requires Winner(d, r, vs, now, Some(plan))
    ensures exists i :: 0 <= i < |vs| && !BestOn(d, r, vs[i], now, None)
  {
    var i: nat :| WinnerAt(d, r, vs, now, plan, i);
    assert Fits(d, vs[i], r, now, plan.pickupIndex, plan.dropoffIndex - 1);
    assert !BestOn(d, r, vs[i], now, None);
  }

  /** A vehicle that already breaks a promise gets no new passenger. */
  lemma BrokenPromiseGetsNoRider(d: Distance, r: RequestState, vs: seq<VehicleState>, now: real, plan: Plan, i: nat)
    requires Metric(d) && i < |vs|
    requires Fresh(vs[i].route, r.id)
    requires !Feasible(d, vs[i].location, vs[i].onboard, vs[i].capacity, now, vs[i].route)
    ensures BestOn(d, r, vs[i], now, None) && !WinnerAt(d, r, vs, now, plan, i)
  {
    var v := vs[i];
    forall pi: nat, di: nat ensures !Fits(d, v, r, now, pi, di) {
      if Fits(d, v, r, now, pi, di) {
        FeasibilityIsHereditary(d, v.location, v.onboard, v.capacity, now, v.route,
                                r.StopFor(d, Pickup), r.StopFor(d, Dropoff), pi, di);
      }
    }
  }
}
