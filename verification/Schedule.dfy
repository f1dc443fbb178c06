/** What a route promises: the arrival times, loads and boarding times along a
    sequence of stops, and the limits the dispatch engine checks at each stop
    (insertion.py, `_feasible` and `_route_travel_time`). */
module Schedule {
  import opened Geo
  import opened Models

  /** Where the vehicle is before driving leg `k`. */
  function Before(loc: Point, route: seq<Stop>, k: nat): Point
    requires k <= |route|
  {
    if k == 0 then loc else route[k - 1].location
  }

  /** The time after driving the first `k` legs, having left `loc` at `now`.
      Stop `k` is reached at `Clock(.., k + 1)`. */
  function Clock(d: Distance, loc: Point, now: real, route: seq<Stop>, k: nat): real
    requires k <= |route|
  {
    if k == 0 then now
    else Clock(d, loc, now, route, k - 1) + TravelTime(d, Before(loc, route, k - 1), route[k - 1].location)
  }

  /** People on board after the first `k` stops. */
  function Load(onboard: int, route: seq<Stop>, k: nat): int
    requires k <= |route|
  {
    if k == 0 then onboard
    else if route[k - 1].stopType.Pickup? then Load(onboard, route, k - 1) + route[k - 1].partySize
    else Load(onboard, route, k - 1) - route[k - 1].partySize
  }

  /** The last pickup of request `id` among the first `k` stops. */
  function LastPickup(route: seq<Stop>, id: int, k: nat): (r: Option<nat>)
    requires k <= |route|
    ensures r.Some? ==> r.value < k && route[r.value].stopType.Pickup? && route[r.value].requestId == id
    ensures r.None? ==> forall j :: 0 <= j < k ==> !(route[j].stopType.Pickup? && route[j].requestId == id)
  {
    if k == 0 then None
    else if route[k - 1].stopType.Pickup? && route[k - 1].requestId == id then Some(k - 1)
    else LastPickup(route, id, k - 1)
  }

  /** When the passenger dropped at stop `k` boards: at the pickup on the route, else as recorded. */
  function BoardTime(d: Distance, loc: Point, now: real, route: seq<Stop>, k: nat): Option<real>
    requires k < |route|
  {
    match LastPickup(route, route[k].requestId, k)
    case Some(j) => Some(Clock(d, loc, now, route, j + 1))
    case None => route[k].boardedAt
  }

  /** The waiting and detour limits at stop `k`. */
  predicate OnTime(d: Distance, loc: Point, now: real, route: seq<Stop>, k: nat)
    requires k < |route|
  {
    var s := route[k];
    var t := Clock(d, loc, now, route, k + 1);
    if s.stopType.Pickup? then t - s.requestTime <= s.maxWait
    else
      var board := BoardTime(d, loc, now, route, k);
      board.Some? && s.directTime > 0.0 ==> t - board.value <= s.RideLimit()
  }

  /** The seat limit at stop `k`. */
  predicate HasSeats(onboard: int, capacity: nat, route: seq<Stop>, k: nat)
    requires k < |route|
  {
    route[k].stopType.Pickup? ==> Load(onboard, route, k + 1) <= capacity
  }

  /** Every passenger on the route, new or old, is served within the limits. */
  ghost predicate Feasible(d: Distance, loc: Point, onboard: int, capacity: nat, now: real, route: seq<Stop>) {
    forall k :: 0 <= k < |route| ==> OnTime(d, loc, now, route, k) && HasSeats(onboard, capacity, route, k)
  }

  // ---------------------------------------------------------------- leaving out one stop

  function RemoveAt<T>(s: seq<T>, i: nat): (r: seq<T>)
    requires i < |s|
    ensures |r| == |s| - 1
    ensures forall k :: 0 <= k < |r| ==> r[k] == s[if k < i then k else k + 1]
  {
    seq(|s| - 1, k requires 0 <= k < |s| - 1 => s[if k < i then k else k + 1])
  }

  function InsertAt<T>(s: seq<T>, i: nat, x: T): (r: seq<T>)
    requires i <= |s|
    ensures |r| == |s| + 1
    ensures forall k :: 0 <= k < |r| ==> r[k] == if k < i then s[k] else if k == i then x else s[k - 1]
  {
    seq(|s| + 1, k requires 0 <= k < |s| + 1 => if k < i then s[k] else if k == i then x else s[k - 1])
  }

  /** How many legs of the full route have been driven when the shorter one has driven `k`. */
  function Legs(i: nat, k: nat): nat {
    if k <= i then k else k + 1
  }

  /** Time saved by leaving out stop `i`, after `k` legs of the shorter route. */
  function Saved(d: Distance, loc: Point, now: real, route: seq<Stop>, i: nat, k: nat): real
    requires i < |route| && k < |route|
  {
    Clock(d, loc, now, route, Legs(i, k)) - Clock(d, loc, now, RemoveAt(route, i), k)
  }

  /** Nothing is saved before stop `i`; passing it saves its detour; later legs are the same. */
  lemma SavedStep(d: Distance, loc: Point, now: real, route: seq<Stop>, i: nat, k: nat)
    requires Metric(d) && i < |route| && k + 1 < |route|
    ensures Saved(d, loc, now, route, i, k) <= Saved(d, loc, now, route, i, k + 1)
  {
    var short := RemoveAt(route, i);
    var a, c := Before(loc, short, k), short[k].location;
    assert Clock(d, loc, now, short, k + 1) == Clock(d, loc, now, short, k) + TravelTime(d, a, c);
    if k == i {
      var b := route[i].location;
      assert Clock(d, loc, now, route, k + 2)
          == Clock(d, loc, now, route, k) + TravelTime(d, a, b) + TravelTime(d, b, c);
      assert Triangle(d, a, b, c);
    }
  }

  /** Leaving out a stop never lengthens the stretch between two other points of the route. */
  lemma {:induction false} SavedGrows(d: Distance, loc: Point, now: real, route: seq<Stop>, i: nat, a: nat, b: nat)
    requires Metric(d) && i < |route| && a <= b < |route|
    ensures Saved(d, loc, now, route, i, a) <= Saved(d, loc, now, route, i, b)
    decreases b
  {
    if a < b {
      SavedGrows(d, loc, now, route, i, a, b - 1);
      SavedStep(d, loc, now, route, i, b - 1);
    }
  }

  lemma SavedNonNegative(d: Distance, loc: Point, now: real, route: seq<Stop>, i: nat, k: nat)
    requires Metric(d) && i < |route| && k < |route|
    ensures 0.0 <= Saved(d, loc, now, route, i, k)
  {
    SavedGrows(d, loc, now, route, i, 0, k);
  }

  /** No dropoff on the route depends on stop `i`. */
  ghost predicate Detachable(route: seq<Stop>, i: nat)
    requires i < |route|
  {
    route[i].stopType.Dropoff? || forall k :: 0 <= k < |route| && k != i ==> route[k].requestId != route[i].requestId
  }

  lemma {:induction false} LastPickupWithout(route: seq<Stop>, i: nat, id: int, k: nat)
    requires i < |route| && k < |route|
    requires route[i].stopType.Dropoff? || route[i].requestId != id
    ensures LastPickup(route, id, Legs(i, k)) ==
            match LastPickup(RemoveAt(route, i), id, k)
            case None => None
            case Some(j) => Some(if j < i then j else j + 1)
  {
    if k > 0 {
      LastPickupWithout(route, i, id, k - 1);
    }
  }

  /** The number, on the full route, of stop `k` of the route without stop `i`. */
  function Full(i: nat, k: nat): nat {
    if k < i then k else k + 1
  }

  lemma PickupWithout(route: seq<Stop>, i: nat, k: nat)
    requires i < |route| && k < |route| - 1 && Detachable(route, i)
    ensures RemoveAt(route, i)[k] == route[Full(i, k)]
    ensures var id := route[Full(i, k)].requestId;
            LastPickup(route, id, Full(i, k)) ==
            match LastPickup(RemoveAt(route, i), id, k)
            case None => None
            case Some(j) => Some(Full(i, j))
  {
    LastPickupWithout(route, i, route[Full(i, k)].requestId, k);
  }

  /** Stop `k` of the shorter route is reached earlier than it was by the time saved. */
  lemma SavedAt(d: Distance, loc: Point, now: real, route: seq<Stop>, i: nat, k: nat)
    requires i < |route| && k < |route| - 1
    ensures Clock(d, loc, now, route, Full(i, k) + 1)
         == Clock(d, loc, now, RemoveAt(route, i), k + 1) + Saved(d, loc, now, route, i, k + 1)
  {
    assert Legs(i, k + 1) == Full(i, k) + 1;
  }

  /** If a limit holds at a stop, it holds there on the route without a detachable stop. */
  lemma OnTimeWithout(d: Distance, loc: Point, now: real, route: seq<Stop>, i: nat, k: nat)
    requires Metric(d) && i < |route| && k < |route| - 1 && Detachable(route, i)
    requires OnTime(d, loc, now, route, Full(i, k))
    ensures OnTime(d, loc, now, RemoveAt(route, i), k)
  {
    var short, full := RemoveAt(route, i), Full(i, k);
    var id := route[full].requestId;
    PickupWithout(route, i, k);
    SavedAt(d, loc, now, route, i, k);
    var t, t' := Clock(d, loc, now, route, full + 1), Clock(d, loc, now, short, k + 1);
    SavedNonNegative(d, loc, now, route, i, k + 1);
    assert t' <= t;
    var j := LastPickup(short, id, k);
    if j.Some? {
      RideWithout(d, loc, now, route, i, j.value, k);
    }
  }

  /** Leaving out a stop makes no ride longer. */
  lemma RideWithout(d: Distance, loc: Point, now: real, route: seq<Stop>, i: nat, j: nat, k: nat)
    requires Metric(d) && i < |route| && j < k < |route| - 1
    ensures Clock(d, loc, now, RemoveAt(route, i), k + 1) - Clock(d, loc, now, RemoveAt(route, i), j + 1)
         <= Clock(d, loc, now, route, Full(i, k) + 1) - Clock(d, loc, now, route, Full(i, j) + 1)
  {
    SavedAt(d, loc, now, route, i, j);
    SavedAt(d, loc, now, route, i, k);
    SavedGrows(d, loc, now, route, i, j + 1, k + 1);
  }
}
