/** What a vehicle owes its passengers between world ticks, and why driving,
    stopping and taking on new passengers keep it.

    `q` is the time the vehicle's position stands for: the world moves a vehicle
    at time t to where it will be at the end of the tick, so after a tick q lies one
    tick ahead. */
module Promises {
  import opened Geo
  import opened Models
  import opened Schedule
  import opened Insertion
  import opened Motion

  // ---------------------------------------------------------------- what is owed

  /** How late a promise may be kept: `wait` seconds at a pickup, `ride` seconds at a dropoff. */
  datatype Leeway = Leeway(wait: real, ride: real)
  {
    predicate Ok() {
      0.0 <= wait <= ride
    }
  }

  /** The arrival at stop `k` respects the passenger's limits, but for the leeway. */
  predicate Kept(d: Distance, loc: Point, q: real, route: seq<Stop>, k: nat, w: Leeway)
    requires k < |route|
  {
    var s := route[k];
    var t := Clock(d, loc, q, route, k + 1);
    if s.stopType.Pickup? then t - s.requestTime <= s.maxWait + w.wait
    else
      match LastPickup(route, s.requestId, k)
      case Some(j) => s.directTime > 0.0 ==> t - Clock(d, loc, q, route, j + 1) <= s.RideLimit()
      case None => s.boardedAt.Some? && s.directTime > 0.0 ==> t - s.boardedAt.value <= s.RideLimit() + w.ride
  }

  ghost predicate AllKept(d: Distance, loc: Point, q: real, route: seq<Stop>, w: Leeway) {
    forall k :: 0 <= k < |route| ==> Kept(d, loc, q, route, k, w)
  }

  predicate SameKind(a: Stop, b: Stop) {
    a.requestId == b.requestId && a.stopType == b.stopType
  }

  /** `b` drops off the passenger that `a` picks up. */
  predicate Serves(a: Stop, b: Stop) {
    a.stopType.Pickup? && b.stopType.Dropoff? && a.requestId == b.requestId && a.partySize == b.partySize
  }

  ghost predicate OncePerKind(route: seq<Stop>) {
    forall i, j :: 0 <= i < j < |route| ==> !SameKind(route[i], route[j])
  }

  ghost predicate PickupsServed(route: seq<Stop>) {
    forall i {:trigger ServedLater(route, i)} :: 0 <= i < |route| && route[i].stopType.Pickup? ==> ServedLater(route, i)
  }

  ghost predicate ServedLater(route: seq<Stop>, i: nat)
    requires i < |route|
  {
    exists j :: i < j < |route| && Serves(route[i], route[j])
  }

  /** Where the passenger picked up at stop `i` is dropped off. */
  lemma DropoffOf(route: seq<Stop>, i: nat) returns (j: nat)
    requires PickupsServed(route) && i < |route| && route[i].stopType.Pickup?
    ensures i < j < |route| && Serves(route[i], route[j])
  {
    assert ServedLater(route, i);
    j :| i < j < |route| && Serves(route[i], route[j]);
  }

  /** Exactly the passengers whose pickup is behind them have a boarding time. */
  ghost predicate BoardingTimes(route: seq<Stop>) {
    forall k {:trigger BoardingTimeAt(route, k)} :: 0 <= k < |route| ==> BoardingTimeAt(route, k)
  }

  predicate BoardingTimeAt(route: seq<Stop>, k: nat)
    requires k < |route|
  {
    route[k].stopType.Dropoff? ==> (LastPickup(route, route[k].requestId, k).None? <==> route[k].boardedAt.Some?)
  }

  ghost predicate Paired(route: seq<Stop>) {
    OncePerKind(route) && PickupsServed(route) && BoardingTimes(route)
  }

  // ---------------------------------------------------------------- the route without its first stop

  lemma {:induction false} ClockTail(d: Distance, loc: Point, q: real, route: seq<Stop>, k: nat)
    requires k < |route|
    ensures Clock(d, loc, q, route, k + 1)
         == Clock(d, route[0].location, q + TravelTime(d, loc, route[0].location), route[1..], k)
  {
    if k > 0 {
      ClockTail(d, loc, q, route, k - 1);
    }
  }

  lemma {:induction false} LoadTail(onboard: int, route: seq<Stop>, k: nat)
    requires k < |route|
    ensures Load(onboard, route, k + 1) == Load(Load(onboard, route, 1), route[1..], k)
  {
    if k > 0 {
      LoadTail(onboard, route, k - 1);
    }
  }

  lemma {:induction false} LastPickupTail(route: seq<Stop>, id: int, k: nat)
    requires k < |route|
    ensures LastPickup(route, id, k + 1) ==
            match LastPickup(route[1..], id, k)
            case Some(j) => Some(j + 1)
            case None => if route[0].stopType.Pickup? && route[0].requestId == id then Some(0) else None
  {
    if k > 0 {
      LastPickupTail(route, id, k - 1);
    }
  }

  /** Setting the boarding times of some stops changes neither times, loads nor pickups. */
  ghost predicate SameButBoarding(a: seq<Stop>, b: seq<Stop>) {
    |a| == |b| && forall k :: 0 <= k < |a| ==> a[k] == b[k].(boardedAt := a[k].boardedAt)
  }

  lemma {:induction false} SameClock(d: Distance, loc: Point, q: real, a: seq<Stop>, b: seq<Stop>, k: nat)
    requires SameButBoarding(a, b) && k <= |a|
    ensures Clock(d, loc, q, a, k) == Clock(d, loc, q, b, k)
  {
    if k > 0 {
      SameClock(d, loc, q, a, b, k - 1);
    }
  }

  lemma {:induction false} SameLoad(onboard: int, a: seq<Stop>, b: seq<Stop>, k: nat)
    requires SameButBoarding(a, b) && k <= |a|
    ensures Load(onboard, a, k) == Load(onboard, b, k)
  {
    if k > 0 {
      SameLoad(onboard, a, b, k - 1);
    }
  }

  lemma {:induction false} SamePickup(a: seq<Stop>, b: seq<Stop>, id: int, k: nat)
    requires SameButBoarding(a, b) && k <= |a|
    ensures LastPickup(a, id, k) == LastPickup(b, id, k)
  {
    if k > 0 {
      SamePickup(a, b, id, k - 1);
    }
  }

  /** On a route with at most one dropoff per passenger, stamping changes exactly that dropoff. */
  lemma {:induction false} StampOnly(route: seq<Stop>, id: int, now: real)
    requires OncePerKind(route)
    ensures var r := StampBoarding(route, id, now);
            && SameButBoarding(r, route)
            && forall k :: 0 <= k < |route| ==>
                 r[k].boardedAt == if route[k].requestId == id && route[k].stopType.Dropoff? then Some(now)
                                   else route[k].boardedAt
  {
    if route != [] && !(route[0].requestId == id && route[0].stopType.Dropoff?) {
      StampOnly(route[1..], id, now);
    }
  }

  /** The route left after serving the first stop at time `now`. */
  function Rest(route: seq<Stop>, now: real): (r: seq<Stop>)
    requires route != []
    ensures |r| == |route| - 1
  {
    if route[0].stopType.Pickup? then StampBoarding(route, route[0].requestId, now)[1..] else route[1..]
  }

  lemma RestIs(route: seq<Stop>, now: real)
    requires route != [] && OncePerKind(route)
    ensures var r := Rest(route, now);
            && SameButBoarding(r, route[1..])
            && forall k :: 0 <= k < |r| ==>
                 r[k].boardedAt == if route[0].stopType.Pickup? && route[k + 1].stopType.Dropoff?
                                      && route[k + 1].requestId == route[0].requestId
                                   then Some(now) else route[k + 1].boardedAt
  {
    StampOnly(route, route[0].requestId, now);
  }

  /** The pickup of request `id` before stop `k` of the rest. */
  lemma RestPickup(route: seq<Stop>, now: real, id: int, k: nat)
    requires route != [] && OncePerKind(route) && k < |route|
    ensures LastPickup(route, id, k + 1) ==
            match LastPickup(Rest(route, now), id, k)
            case Some(j) => Some(j + 1)
            case None => if route[0].stopType.Pickup? && route[0].requestId == id then Some(0) else None
  {
    RestIs(route, now);
    SamePickup(Rest(route, now), route[1..], id, k);
    LastPickupTail(route, id, k);
  }

  /** The first stop's passenger is not picked up again. */
  lemma NoSecondPickup(route: seq<Stop>, now: real, k: nat)
    requires route != [] && OncePerKind(route) && k < |route| && route[0].stopType.Pickup?
    ensures LastPickup(Rest(route, now), route[0].requestId, k).None?
  {
    var j := LastPickup(Rest(route, now), route[0].requestId, k);
    RestIs(route, now);
    assert j.Some? ==> !SameKind(route[0], route[j.value + 1]);
  }

  lemma RestBoarding(route: seq<Stop>, now: real, k: nat)
    requires route != [] && OncePerKind(route) && BoardingTimes(route) && k < |route| - 1
    ensures BoardingTimeAt(Rest(route, now), k)
  {
    RestIs(route, now);
    assert BoardingTimeAt(route, k + 1);
    RestPickup(route, now, route[k + 1].requestId, k);
    if route[0].stopType.Pickup? {
      NoSecondPickup(route, now, k);
    }
  }

  lemma RestPaired(route: seq<Stop>, now: real)
    requires route != [] && Paired(route)
    ensures Paired(Rest(route, now))
  {
    var r := Rest(route, now);
    RestIs(route, now);
    forall i | 0 <= i < |r| && r[i].stopType.Pickup? ensures ServedLater(r, i) {
      var j := DropoffOf(route, i + 1);
      assert Serves(r[i], r[j - 1]);
    }
    forall i, j | 0 <= i < j < |r| ensures !SameKind(r[i], r[j]) {
      assert !SameKind(route[i + 1], route[j + 1]);
    }
    forall k | 0 <= k < |r| ensures BoardingTimeAt(r, k) {
      RestBoarding(route, now, k);
    }
  }

  /** Serving the first stop at `now` keeps what is owed at the other stops, if a passenger who gets on
      is reached within the leeway for rides. */
  lemma RestKept(d: Distance, loc: Point, q: real, q2: real, route: seq<Stop>, w: Leeway, now: real)
    requires route != [] && OncePerKind(route) && AllKept(d, loc, q, route, w)
    requires q2 == q + TravelTime(d, loc, route[0].location) && (route[0].stopType.Pickup? ==> q2 <= now + w.ride)
    ensures AllKept(d, route[0].location, q2, Rest(route, now), w)
  {
    forall k | 0 <= k < |route| - 1 ensures Kept(d, route[0].location, q2, Rest(route, now), k, w) {
      RestKeptAt(d, loc, q, route, w, now, k);
    }
  }

  lemma RestClock(d: Distance, loc: Point, q: real, route: seq<Stop>, now: real, k: nat)
    requires route != [] && OncePerKind(route) && k < |route|
    ensures Clock(d, route[0].location, q + TravelTime(d, loc, route[0].location), Rest(route, now), k)
         == Clock(d, loc, q, route, k + 1)
  {
    RestIs(route, now);
    ClockTail(d, loc, q, route, k);
    SameClock(d, route[0].location, q + TravelTime(d, loc, route[0].location), Rest(route, now), route[1..], k);
  }

  lemma RestKeptAt(d: Distance, loc: Point, q: real, route: seq<Stop>, w: Leeway, now: real, k: nat)
    requires route != [] && OncePerKind(route) && k < |route| - 1 && Kept(d, loc, q, route, k + 1, w)
    requires route[0].stopType.Pickup? ==> q + TravelTime(d, loc, route[0].location) <= now + w.ride
    ensures Kept(d, route[0].location, q + TravelTime(d, loc, route[0].location), Rest(route, now), k, w)
  {
    var id := route[k + 1].requestId;
    RestIs(route, now);
    assert Rest(route, now)[k].RideLimit() == route[k + 1].RideLimit();
    RestClock(d, loc, q, route, now, k + 1);
    RestClock(d, loc, q, route, now, 0);
    RestPickup(route, now, id, k);
    var j := LastPickup(Rest(route, now), id, k);
    if j.Some? {
      RestClock(d, loc, q, route, now, j.value + 1);
    }
  }

  /** Driving towards the first stop changes none of the arrival times. */
  lemma {:induction false} ClockAfterDrive(d: Distance, loc: Point, loc': Point, q: real, used: real, route: seq<Stop>,
                                           k: nat)
    requires 0 < k <= |route|
    requires TravelTime(d, loc', route[0].location) == TravelTime(d, loc, route[0].location) - used
    ensures Clock(d, loc', q + used, route, k) == Clock(d, loc, q, route, k)
  {
    if k > 1 {
      ClockAfterDrive(d, loc, loc', q, used, route, k - 1);
    }
  }

  lemma DriveKept(d: Distance, loc: Point, loc': Point, q: real, q2: real, used: real, route: seq<Stop>, w: Leeway)
    requires route != [] && AllKept(d, loc, q, route, w) && q2 == q + used
    requires TravelTime(d, loc', route[0].location) == TravelTime(d, loc, route[0].location) - used
    ensures AllKept(d, loc', q2, route, w)
  {
    forall k | 0 <= k < |route| ensures Kept(d, loc', q2, route, k, w) {
      assert Kept(d, loc, q, route, k, w);
      ClockAfterDrive(d, loc, loc', q, used, route, k + 1);
      var j := LastPickup(route, route[k].requestId, k);
      if j.Some? {
        ClockAfterDrive(d, loc, loc', q, used, route, j.value + 1);
      }
    }
  }

  /** A later start delays every arrival equally. */
  lemma {:induction false} ClockLater(d: Distance, loc: Point, now: real, late: real, route: seq<Stop>, k: nat)
    requires k <= |route|
    ensures Clock(d, loc, now + late, route, k) == Clock(d, loc, now, route, k) + late
  {
    if k > 0 {
      ClockLater(d, loc, now, late, route, k - 1);
    }
  }

  lemma OnTimeKept(d: Distance, loc: Point, now: real, q: real, route: seq<Stop>, w: Leeway, k: nat)
    requires k < |route| && OnTime(d, loc, now, route, k) && now <= q <= now + w.wait && w.Ok()
    ensures Kept(d, loc, q, route, k, w)
  {
    ClockLater(d, loc, now, q - now, route, k + 1);
    var j := LastPickup(route, route[k].requestId, k);
    if j.Some? {
      ClockLater(d, loc, now, q - now, route, j.value + 1);
    }
  }

  /** A route the engine accepts at time `now` is kept when the position stands for a time
      that is later by at most the leeway for waiting. */
  lemma FeasibleKept(d: Distance, loc: Point, onboard: int, capacity: nat, now: real, q: real, route: seq<Stop>, w: Leeway)
    requires Feasible(d, loc, onboard, capacity, now, route) && now <= q <= now + w.wait && w.Ok()
    ensures AllKept(d, loc, q, route, w)
  {
    forall k | 0 <= k < |route| ensures Kept(d, loc, q, route, k, w) {
      assert OnTime(d, loc, now, route, k);
      OnTimeKept(d, loc, now, q, route, w, k);
    }
  }

  // ---------------------------------------------------------------- pickups within a tick

  /** A pickup that is due by time `next` is due by `limit`. */
  predicate PromptAt(d: Distance, loc: Point, q: real, route: seq<Stop>, next: real, limit: real, k: nat)
    requires k < |route|
  {
    route[k].stopType.Pickup? && Clock(d, loc, q, route, k + 1) <= next ==> Clock(d, loc, q, route, k + 1) <= limit
  }

  ghost predicate Prompt(d: Distance, loc: Point, q: real, route: seq<Stop>, next: real, limit: real) {
    forall k :: 0 <= k < |route| ==> PromptAt(d, loc, q, route, next, limit, k)
  }

  /** Serving the first stop does not change when the others are due. */
  lemma RestPrompt(d: Distance, loc: Point, q: real, q2: real, route: seq<Stop>, now: real, next: real, limit: real)
    requires route != [] && OncePerKind(route) && Prompt(d, loc, q, route, next, limit)
    requires q2 == q + TravelTime(d, loc, route[0].location)
    ensures Prompt(d, route[0].location, q2, Rest(route, now), next, limit)
  {
    RestIs(route, now);
    forall k | 0 <= k < |route| - 1
      ensures PromptAt(d, route[0].location, q2, Rest(route, now), next, limit, k)
    {
      RestClock(d, loc, q, route, now, k + 1);
      assert PromptAt(d, loc, q, route, next, limit, k + 1);
    }
  }

  // ---------------------------------------------------------------- a new pair of stops

  /** The number a stop had before the pair was put in, and the number it has after. */
  function Old(pi: nat, di: nat, k: nat): nat
    requires pi <= di && k != pi && k != di + 1
  {
    if k < pi then k else if k < di + 1 then k - 1 else k - 2
  }

  function New(pi: nat, di: nat, o: nat): nat {
    Full(di + 1, Full(pi, o))
  }

  lemma PlacedAt(route: seq<Stop>, p: Stop, q: Stop, pi: nat, di: nat, k: nat)
    requires pi <= di <= |route| && k < |route| + 2
    ensures Placed(route, p, q, pi, di)[k] == if k == pi then p else if k == di + 1 then q else route[Old(pi, di, k)]
    ensures k != pi && k != di + 1 ==> k == New(pi, di, Old(pi, di, k))
  {
  }

  lemma PlacedNew(route: seq<Stop>, p: Stop, q: Stop, pi: nat, di: nat, o: nat)
    requires pi <= di <= |route| && o < |route|
    ensures New(pi, di, o) < |route| + 2 && Placed(route, p, q, pi, di)[New(pi, di, o)] == route[o]
  {
  }

  lemma PlacedOnce(route: seq<Stop>, p: Stop, q: Stop, pi: nat, di: nat)
    requires pi <= di <= |route| && OncePerKind(route) && NewPair(route, p, q)
    ensures OncePerKind(Placed(route, p, q, pi, di))
  {
    var c := Placed(route, p, q, pi, di);
    forall i, j | 0 <= i < j < |c| ensures !SameKind(c[i], c[j]) {
      PlacedAt(route, p, q, pi, di, i);
      PlacedAt(route, p, q, pi, di, j);
      if i != pi && j != pi && i != di + 1 && j != di + 1 {
        assert !SameKind(route[Old(pi, di, i)], route[Old(pi, di, j)]);
      }
    }
  }

  lemma PlacedServedAt(route: seq<Stop>, p: Stop, q: Stop, pi: nat, di: nat, i: nat)
    returns (j: nat)
    requires pi <= di <= |route| && PickupsServed(route) && NewPair(route, p, q)
    requires i < |route| + 2 && Placed(route, p, q, pi, di)[i].stopType.Pickup?
    ensures i < j < |route| + 2 && Serves(Placed(route, p, q, pi, di)[i], Placed(route, p, q, pi, di)[j])
  {
    PlacedAt(route, p, q, pi, di, i);
    if i == pi {
      j := di + 1;
      PlacedAt(route, p, q, pi, di, j);
    } else {
      var o := Old(pi, di, i);
      var m := DropoffOf(route, o);
      j := New(pi, di, m);
      PlacedNew(route, p, q, pi, di, m);
    }
  }

  /** Pickups of other passengers are found where they were. */
  lemma PlacedPickup(route: seq<Stop>, p: Stop, q: Stop, pi: nat, di: nat, o: nat)
    requires pi <= di <= |route| && NewPair(route, p, q) && o < |route|
    ensures LastPickup(Placed(route, p, q, pi, di), route[o].requestId, New(pi, di, o)).None?
       <==> LastPickup(route, route[o].requestId, o).None?
  {
    PlacedUndone(route, p, q, pi, di);
    PickupWithout(Placed(route, p, q, pi, di), di + 1, Full(pi, o));
    PickupWithout(InsertAt(route, pi, p), pi, o);
  }

  lemma PlacedBoarding(route: seq<Stop>, p: Stop, q: Stop, pi: nat, di: nat, k: nat)
    requires pi <= di <= |route| && BoardingTimes(route) && NewPair(route, p, q) && q.boardedAt.None?
    requires k < |route| + 2
    ensures BoardingTimeAt(Placed(route, p, q, pi, di), k)
  {
    PlacedAt(route, p, q, pi, di, k);
    if k == di + 1 {
      PlacedAt(route, p, q, pi, di, pi);
    } else if k != pi {
      assert BoardingTimeAt(route, Old(pi, di, k));
      PlacedPickup(route, p, q, pi, di, Old(pi, di, k));
    }
  }

  /** Putting in a new passenger's stops keeps the route well paired. */
  lemma PlacedPaired(route: seq<Stop>, p: Stop, q: Stop, pi: nat, di: nat)
    requires pi <= di <= |route| && Paired(route) && NewPair(route, p, q) && q.boardedAt.None?
    ensures Paired(Placed(route, p, q, pi, di))
  {
    var c := Placed(route, p, q, pi, di);
    PlacedOnce(route, p, q, pi, di);
    forall i | 0 <= i < |c| && c[i].stopType.Pickup? ensures ServedLater(c, i) {
      var j := PlacedServedAt(route, p, q, pi, di, i);
    }
    forall k | 0 <= k < |c| ensures BoardingTimeAt(c, k) {
      PlacedBoarding(route, p, q, pi, di, k);
    }
  }

  // ---------------------------------------------------------------- seats

  /** Passengers a route lets out, less those it takes in. */
  function NetOut(route: seq<Stop>): int {
    if route == [] then 0
    else
      (if route[0].stopType.Dropoff? then route[0].partySize as int else -(route[0].partySize as int))
      + NetOut(route[1..])
  }

  /** The people dropped off by the route who were not picked up on it.  `picked` are the
      requests picked up so far. */
  function Riders(route: seq<Stop>, picked: set<int>): nat {
    if route == [] then 0
    else if route[0].stopType.Pickup? then Riders(route[1..], picked + {route[0].requestId})
    else (if route[0].requestId in picked then 0 else route[0].partySize) + Riders(route[1..], picked)
  }

  /** The size of the party that the (first) dropoff of `id` lets out. */
  function PartyOut(route: seq<Stop>, id: int): nat {
    if route == [] then 0
    else if route[0].stopType.Dropoff? && route[0].requestId == id then route[0].partySize
    else PartyOut(route[1..], id)
  }

  lemma OnceTail(route: seq<Stop>)
    requires route != [] && OncePerKind(route)
    ensures OncePerKind(route[1..])
  {
    forall i, j | 0 <= i < j < |route[1..]| ensures !SameKind(route[1..][i], route[1..][j]) {
      assert !SameKind(route[i + 1], route[j + 1]);
    }
  }

  lemma ServedTail(route: seq<Stop>)
    requires route != [] && PickupsServed(route)
    ensures PickupsServed(route[1..])
  {
    var r := route[1..];
    forall i | 0 <= i < |r| && r[i].stopType.Pickup? ensures ServedLater(r, i) {
      var j := DropoffOf(route, i + 1);
      assert Serves(r[i], r[j - 1]);
    }
  }

  /** No dropoff of `id` on the route: its party is not let out. */
  lemma {:induction false} NobodyOut(route: seq<Stop>, id: int, picked: set<int>)
    requires forall k :: 0 <= k < |route| ==> !(route[k].stopType.Dropoff? && route[k].requestId == id)
    ensures PartyOut(route, id) == 0 && Riders(route, picked + {id}) == Riders(route, picked)
  {
    if route != [] {
      var next := if route[0].stopType.Pickup? then picked + {route[0].requestId} else picked;
      assert picked + {id} + {route[0].requestId} == picked + {route[0].requestId} + {id};
      NobodyOut(route[1..], id, next);
    }
  }

  /** Counting request `id` as picked up takes its party off the riders. */
  lemma {:induction false} RidersPicked(route: seq<Stop>, id: int, picked: set<int>)
    requires OncePerKind(route) && id !in picked
    requires forall k :: 0 <= k < |route| ==> !(route[k].stopType.Pickup? && route[k].requestId == id)
    ensures Riders(route, picked) == Riders(route, picked + {id}) + PartyOut(route, id)
  {
    if route != [] {
      OnceTail(route);
      if route[0].stopType.Dropoff? && route[0].requestId == id {
        forall k | 0 <= k < |route[1..]|
          ensures !(route[1..][k].stopType.Dropoff? && route[1..][k].requestId == id)
        {
          assert !SameKind(route[0], route[k + 1]);
        }
        NobodyOut(route[1..], id, picked);
      } else {
        var next := if route[0].stopType.Pickup? then picked + {route[0].requestId} else picked;
        assert picked + {id} + {route[0].requestId} == picked + {route[0].requestId} + {id};
        RidersPicked(route[1..], id, next);
      }
    }
  }

  lemma {:induction false} PartyOutAt(route: seq<Stop>, j: nat)
    requires OncePerKind(route) && j < |route| && route[j].stopType.Dropoff?
    ensures PartyOut(route, route[j].requestId) == route[j].partySize
  {
    if j > 0 {
      assert !SameKind(route[0], route[j]);
      OnceTail(route);
      PartyOutAt(route[1..], j - 1);
    }
  }

  /** On a well-paired route the people let out, less those taken in, are exactly the people
      whose pickup is already behind the vehicle. */
  lemma {:induction false} RidersAreNetOut(route: seq<Stop>)
    requires OncePerKind(route) && PickupsServed(route)
    ensures NetOut(route) == Riders(route, {})
  {
    if route != [] {
      OnceTail(route);
      ServedTail(route);
      RidersAreNetOut(route[1..]);
      if route[0].stopType.Pickup? {
        var id := route[0].requestId;
        var j := DropoffOf(route, 0);
        forall k | 0 <= k < |route[1..]|
          ensures !(route[1..][k].stopType.Pickup? && route[1..][k].requestId == id)
        {
          assert !SameKind(route[0], route[k + 1]);
        }
        RidersPicked(route[1..], id, {});
        PartyOutAt(route[1..], j - 1);
      }
    }
  }

  /** What is on board after `k` stops gets out at the remaining ones. */
  lemma {:induction false} LoadIsNetOut(onboard: int, route: seq<Stop>, k: nat)
    requires k <= |route| && onboard == NetOut(route)
    ensures Load(onboard, route, k) == NetOut(route[k..])
  {
    if k == 0 {
      assert route[0..] == route;
    } else {
      LoadIsNetOut(onboard, route, k - 1);
      assert route[k - 1..][1..] == route[k..];
    }
  }

  lemma {:induction false} SuffixPaired(route: seq<Stop>, k: nat)
    requires k <= |route| && OncePerKind(route) && PickupsServed(route)
    ensures OncePerKind(route[k..]) && PickupsServed(route[k..])
  {
    if k == 0 {
      assert route[0..] == route;
    } else {
      SuffixPaired(route, k - 1);
      OnceTail(route[k - 1..]);
      ServedTail(route[k - 1..]);
      assert route[k - 1..][1..] == route[k..];
    }
  }

  /** The number on board is never negative along the route. */
  lemma LoadNonNegative(onboard: int, route: seq<Stop>, k: nat)
    requires k <= |route| && onboard == NetOut(route) && OncePerKind(route) && PickupsServed(route)
    ensures Load(onboard, route, k) >= 0
  {
    LoadIsNetOut(onboard, route, k);
    SuffixPaired(route, k);
    RidersAreNetOut(route[k..]);
  }

  lemma {:induction false} NetOutInserted(route: seq<Stop>, i: nat, x: Stop)
    requires i <= |route|
    ensures NetOut(InsertAt(route, i, x)) ==
            NetOut(route) + if x.stopType.Dropoff? then x.partySize as int else -(x.partySize as int)
  {
    var r := InsertAt(route, i, x);
    if i == 0 {
      assert r[1..] == route;
    } else {
      NetOutInserted(route[1..], i - 1, x);
      assert r[1..] == InsertAt(route[1..], i - 1, x);
    }
  }

  lemma NetOutPlaced(route: seq<Stop>, p: Stop, q: Stop, pi: nat, di: nat)
    requires pi <= di <= |route| && NewPair(route, p, q)
    ensures NetOut(Placed(route, p, q, pi, di)) == NetOut(route)
  {
    NetOutInserted(route, pi, p);
    NetOutInserted(InsertAt(route, pi, p), di + 1, q);
  }

  lemma {:induction false} NetOutSame(a: seq<Stop>, b: seq<Stop>)
    requires SameButBoarding(a, b)
    ensures NetOut(a) == NetOut(b)
  {
    if a != [] {
      NetOutSame(a[1..], b[1..]);
    }
  }

  ghost predicate WithinCapacity(onboard: int, capacity: nat, route: seq<Stop>) {
    forall k :: 0 <= k <= |route| ==> Load(onboard, route, k) <= capacity
  }

  lemma {:induction false} FeasibleLoad(onboard: int, capacity: nat, route: seq<Stop>, k: nat)
    requires k <= |route| && onboard <= capacity
    requires forall j :: 0 <= j < |route| ==> HasSeats(onboard, capacity, route, j)
    ensures Load(onboard, route, k) <= capacity
  {
    if k > 0 {
      FeasibleLoad(onboard, capacity, route, k - 1);
      assert HasSeats(onboard, capacity, route, k - 1);
    }
  }
}
