/** One vehicle together with the requests it serves: the invariant between and
    within world ticks, and the proof that a whole tick keeps it. */
module Riding {
  import opened Geo
  import opened Models
  import opened Schedule
  import opened Motion
  import opened Promises

  // ---------------------------------------------------------------- requests

  /** The status says how far a request has come. */
  predicate StatusTells(r: RequestState) {
    && (r.assignedVehicle.None? <==> r.status.Pending? || r.status.Rejected?)
    && (r.pickupTime.Some? <==> r.status.Onboard? || r.status.Completed?)
    && (r.dropoffTime.Some? <==> r.status.Completed?)
  }

  /** The promises to a rider, as far as they have come due by time `now`. */
  ghost predicate RiderServed(d: Distance, w: Leeway, now: real, r: RequestState) {
    && StatusTells(r)
    && (r.pickupTime.Some? ==>
          && r.assignedVehicle.Some?
          && r.pickupTime.value <= now
          && r.pickupTime.value - r.requestTime <= r.maxWait + w.wait)
    && (r.dropoffTime.Some? ==>
          && r.pickupTime.Some?
          && r.pickupTime.value <= r.dropoffTime.value <= now
          && (r.DirectTravelTime(d) > 0.0 ==>
                r.dropoffTime.value - r.pickupTime.value <= r.RideLimit(d) + w.ride))
  }

  ghost predicate AllServed(d: Distance, w: Leeway, now: real, requests: map<int, RequestState>) {
    forall id :: id in requests ==> requests[id].id == id && RiderServed(d, w, now, requests[id])
  }

  /** `s` is a stop of request `r`, and its boarding time is the recorded one. */
  ghost predicate StopOf(d: Distance, s: Stop, r: RequestState) {
    && s == r.StopFor(d, s.stopType).(boardedAt := s.boardedAt)
    && r.dropoffTime.None?
    && (if s.stopType.Pickup? then r.pickupTime.None? else s.boardedAt == r.pickupTime)
  }

  ghost predicate LinkedStop(d: Distance, vid: int, s: Stop, requests: map<int, RequestState>) {
    && s.requestId in requests
    && StopOf(d, s, requests[s.requestId])
    && requests[s.requestId].assignedVehicle == Some(vid)
  }

  /** Every stop belongs to a request assigned to vehicle `vid`. */
  ghost predicate Linked(d: Distance, vid: int, route: seq<Stop>, requests: map<int, RequestState>) {
    forall k :: 0 <= k < |route| ==> LinkedStop(d, vid, route[k], requests)
  }

  ghost predicate Has(route: seq<Stop>, id: int, stopType: StopType) {
    exists k :: 0 <= k < |route| && route[k].requestId == id && route[k].stopType == stopType
  }

  /** Every assigned rider still has the stops that remain to be made. */
  ghost predicate Carried(vid: int, route: seq<Stop>, requests: map<int, RequestState>) {
    forall id :: id in requests && requests[id].assignedVehicle == Some(vid) ==>
      && (requests[id].pickupTime.None? ==> Has(route, id, Pickup))
      && (requests[id].dropoffTime.None? ==> Has(route, id, Dropoff))
  }

  /** What holds of a vehicle whose position stands for time `q`, apart from its position. */
  ghost predicate Sound(d: Distance, v: VehicleState, requests: map<int, RequestState>) {
    && Paired(v.route)
    && Linked(d, v.id, v.route, requests)
    && Carried(v.id, v.route, requests)
    && v.onboard == NetOut(v.route)
    && WithinCapacity(v.onboard, v.capacity, v.route)
  }

  ghost predicate VehicleInv(roads: Roads, w: Leeway, v: VehicleState, seg: Option<Segment>,
                             requests: map<int, RequestState>, q: real)
  {
    CacheOk(roads, v, seg) && Sound(roads.d, v, requests) && AllKept(roads.d, v.location, q, v.route, w)
  }

  // ---------------------------------------------------------------- serving one stop

  /** The request of the first stop after it is served at `now`. */
  function Stamped(r: RequestState, stopType: StopType, now: real): RequestState {
    if stopType.Pickup? then r.(status := Onboard, pickupTime := Some(now))
    else r.(status := Completed, dropoffTime := Some(now))
  }

  lemma ClampNeverFires(v: VehicleState)
    requires v.route != [] && Paired(v.route) && v.onboard == NetOut(v.route) && v.route[0].stopType.Dropoff?
    ensures v.onboard - v.route[0].partySize >= 0
  {
    LoadNonNegative(v.onboard, v.route, 1);
  }

  /** What `Arrive` does at a stop. */
  lemma ArriveIs(d: Distance, t: Tick, now: real)
    requires t.v.route != [] && Sound(d, t.v, t.requests)
    requires forall id :: id in t.requests ==> t.requests[id].id == id
    ensures Served(t, Arrive(t, t.v.route[0].location, now), now)
  {
    var s := t.v.route[0];
    assert LinkedStop(d, t.v.id, s, t.requests);
    if s.stopType.Dropoff? {
      ClampNeverFires(t.v);
      LetsOff(t, s, t.requests[s.requestId], now);
    } else {
      TakesOn(t, s, t.requests[s.requestId], now);
    }
  }

  lemma TakesOn(t: Tick, s: Stop, r: RequestState, now: real)
    requires t.v.route != [] && s == t.v.route[0] && s.stopType.Pickup? && s.partySize == r.partySize
    requires s.requestId in t.requests && t.requests[s.requestId] == r && r.id == s.requestId
    ensures Served(t, Arrive(t, s.location, now), now)
  {
    assert Load(t.v.onboard, t.v.route, 1) == Load(t.v.onboard, t.v.route, 0) + s.partySize;
  }

  lemma LetsOff(t: Tick, s: Stop, r: RequestState, now: real)
    requires t.v.route != [] && s == t.v.route[0] && s.stopType.Dropoff? && s.partySize == r.partySize
    requires s.requestId in t.requests && t.requests[s.requestId] == r && t.v.onboard - s.partySize >= 0
    ensures Served(t, Arrive(t, s.location, now), now)
  {
    assert Load(t.v.onboard, t.v.route, 1) == Load(t.v.onboard, t.v.route, 0) - s.partySize;
  }

  lemma RestSeats(v: VehicleState, now: real)
    requires v.route != [] && Paired(v.route) && v.onboard == NetOut(v.route)
    requires WithinCapacity(v.onboard, v.capacity, v.route)
    ensures Load(v.onboard, v.route, 1) == NetOut(Rest(v.route, now))
    ensures WithinCapacity(Load(v.onboard, v.route, 1), v.capacity, Rest(v.route, now))
  {
    var r := Rest(v.route, now);
    RestIs(v.route, now);
    NetOutSame(r, v.route[1..]);
    forall k | 0 <= k <= |r| ensures Load(Load(v.onboard, v.route, 1), r, k) <= v.capacity {
      SameLoad(Load(v.onboard, v.route, 1), r, v.route[1..], k);
      LoadTail(v.onboard, v.route, k);
      assert Load(v.onboard, v.route, k + 1) <= v.capacity;
    }
  }

  lemma SameKindSameStop(route: seq<Stop>, i: nat, j: nat)
    requires OncePerKind(route) && i < |route| && j < |route| && SameKind(route[i], route[j])
    ensures i == j
  {
  }

  /** A request's pickup comes before its dropoff. */
  lemma PickupFirst(route: seq<Stop>, p: nat, q: nat)
    requires Paired(route) && p < |route| && q < |route| && route[p].requestId == route[q].requestId
    requires route[p].stopType.Pickup? && route[q].stopType.Dropoff?
    ensures p < q
  {
    var j := DropoffOf(route, p);
    SameKindSameStop(route, j, q);
  }

  /** After the first stop is served, another stop of the same request can only be its dropoff. */
  lemma SameRequestLater(route: seq<Stop>, k: nat)
    requires Paired(route) && 0 < k < |route| && route[k].requestId == route[0].requestId
    ensures route[0].stopType.Pickup? && route[k].stopType.Dropoff?
  {
    assert !SameKind(route[0], route[k]);
    if route[0].stopType.Dropoff? && route[k].stopType.Pickup? {
      PickupFirst(route, k, 0);
    }
  }

  /** A dropoff stays a stop of its request when both are given the boarding time. */
  lemma BoardedStop(d: Distance, s: Stop, r: RequestState, now: real)
    requires StopOf(d, s, r) && s.stopType.Dropoff?
    ensures StopOf(d, s.(boardedAt := Some(now)), Stamped(r, Pickup, now))
  {
    assert Stamped(r, Pickup, now).StopFor(d, Dropoff) == r.StopFor(d, Dropoff);
  }

  lemma RestLinkedAt(d: Distance, v: VehicleState, requests: map<int, RequestState>, now: real, k: nat)
    requires v.route != [] && Paired(v.route) && Linked(d, v.id, v.route, requests) && k < |v.route| - 1
    requires v.route[0].requestId in requests
    ensures var s := v.route[0];
            LinkedStop(d, v.id, Rest(v.route, now)[k],
                       requests[s.requestId := Stamped(requests[s.requestId], s.stopType, now)])
  {
    var s, o, r := v.route[0], v.route[k + 1], Rest(v.route, now)[k];
    RestIs(v.route, now);
    assert r == o.(boardedAt := r.boardedAt);
    assert LinkedStop(d, v.id, o, requests);
    if o.requestId == s.requestId {
      SameRequestLater(v.route, k + 1);
      assert r == o.(boardedAt := Some(now));
      BoardedStop(d, o, requests[s.requestId], now);
    } else {
      assert r == o;
    }
  }

  lemma RestLinked(d: Distance, v: VehicleState, requests: map<int, RequestState>, now: real)
    requires v.route != [] && Paired(v.route) && Linked(d, v.id, v.route, requests)
    ensures var s := v.route[0];
            s.requestId in requests
            && Linked(d, v.id, Rest(v.route, now),
                      requests[s.requestId := Stamped(requests[s.requestId], s.stopType, now)])
  {
    var s, r := v.route[0], Rest(v.route, now);
    assert LinkedStop(d, v.id, s, requests);
    var after := requests[s.requestId := Stamped(requests[s.requestId], s.stopType, now)];
    forall k | 0 <= k < |r| ensures LinkedStop(d, v.id, r[k], after) {
      RestLinkedAt(d, v, requests, now, k);
    }
  }

  lemma HasInRest(route: seq<Stop>, now: real, id: int, stopType: StopType)
    requires route != [] && OncePerKind(route) && Has(route, id, stopType)
    requires route[0].requestId != id || route[0].stopType != stopType
    ensures Has(Rest(route, now), id, stopType)
  {
    var k :| 0 <= k < |route| && route[k].requestId == id && route[k].stopType == stopType;
    RestIs(route, now);
    var r := Rest(route, now);
    assert r[k - 1].requestId == id && r[k - 1].stopType == stopType;
  }

  lemma FirstDropoffBoarded(d: Distance, v: VehicleState, requests: map<int, RequestState>)
    requires v.route != [] && Paired(v.route) && Linked(d, v.id, v.route, requests) && v.route[0].stopType.Dropoff?
    ensures v.route[0].requestId in requests && requests[v.route[0].requestId].pickupTime.Some?
  {
    assert LinkedStop(d, v.id, v.route[0], requests);
    assert BoardingTimeAt(v.route, 0);
  }

  lemma RestCarriedAt(d: Distance, v: VehicleState, requests: map<int, RequestState>, now: real, id: int)
    requires v.route != [] && Paired(v.route) && Linked(d, v.id, v.route, requests) && Carried(v.id, v.route, requests)
    requires id in requests && requests[id].assignedVehicle == Some(v.id)
    ensures var s := v.route[0];
            var r := if id == s.requestId then Stamped(requests[id], s.stopType, now) else requests[id];
            && (r.pickupTime.None? ==> Has(Rest(v.route, now), id, Pickup))
            && (r.dropoffTime.None? ==> Has(Rest(v.route, now), id, Dropoff))
  {
    var s := v.route[0];
    var r := if id == s.requestId then Stamped(requests[id], s.stopType, now) else requests[id];
    if s.stopType.Dropoff? {
      FirstDropoffBoarded(d, v, requests);
    }
    if r.pickupTime.None? {
      HasInRest(v.route, now, id, Pickup);
    }
    if r.dropoffTime.None? {
      HasInRest(v.route, now, id, Dropoff);
    }
  }

  lemma RestCarried(d: Distance, v: VehicleState, requests: map<int, RequestState>, now: real)
    requires v.route != [] && Paired(v.route) && Linked(d, v.id, v.route, requests) && Carried(v.id, v.route, requests)
    requires v.route[0].requestId in requests
    ensures var s := v.route[0];
            Carried(v.id, Rest(v.route, now),
                    requests[s.requestId := Stamped(requests[s.requestId], s.stopType, now)])
  {
    var s, r := v.route[0], Rest(v.route, now);
    var after := requests[s.requestId := Stamped(requests[s.requestId], s.stopType, now)];
    forall id | id in after && after[id].assignedVehicle == Some(v.id)
      ensures (after[id].pickupTime.None? ==> Has(r, id, Pickup)) && (after[id].dropoffTime.None? ==> Has(r, id, Dropoff))
    {
      RestCarriedAt(d, v, requests, now, id);
    }
  }

  lemma StopLimits(d: Distance, s: Stop, r: RequestState)
    requires StopOf(d, s, r)
    ensures s.RideLimit() == r.RideLimit(d) && s.directTime == r.DirectTravelTime(d)
    ensures s.requestTime == r.requestTime && s.maxWait == r.maxWait && s.requestId == r.id
  {
  }

  lemma StampedLimits(d: Distance, r: RequestState, stopType: StopType, now: real)
    ensures Stamped(r, stopType, now).RideLimit(d) == r.RideLimit(d)
    ensures Stamped(r, stopType, now).DirectTravelTime(d) == r.DirectTravelTime(d)
  {
  }

  /** Being served at `now` meets the rider's promise, because the planned arrival did. */
  lemma ServedInTime(d: Distance, w: Leeway, loc: Point, q: real, v: VehicleState, r: RequestState, now: real)
    requires v.route != [] && Paired(v.route) && AllKept(d, loc, q, v.route, w)
    requires StopOf(d, v.route[0], r) && r.assignedVehicle.Some? && RiderServed(d, w, now, r)
    requires now <= q + TravelTime(d, loc, v.route[0].location)
    ensures RiderServed(d, w, now, Stamped(r, v.route[0].stopType, now))
  {
    var s := v.route[0];
    assert Kept(d, loc, q, v.route, 0, w);
    assert Clock(d, loc, q, v.route, 1) == q + TravelTime(d, loc, s.location);
    assert BoardingTimeAt(v.route, 0);
    StopLimits(d, s, r);
    StampedLimits(d, r, s.stopType, now);
  }

  // ---------------------------------------------------------------- the whole tick

  /** Only requests of vehicle `vid` changed, and not in what identifies or assigns them. */
  ghost predicate Touched(vid: int, a: map<int, RequestState>, b: map<int, RequestState>) {
    && a.Keys == b.Keys
    && forall id :: id in a ==>
         && (a[id].assignedVehicle != Some(vid) ==> b[id] == a[id])
         && b[id] == a[id].(status := b[id].status, pickupTime := b[id].pickupTime, dropoffTime := b[id].dropoffTime)
  }

  /** `b` is the end of route `a`, up to boarding times. */
  ghost predicate SuffixOf(b: seq<Stop>, a: seq<Stop>) {
    |b| <= |a| && SameButBoarding(b, a[|a| - |b|..])
  }

  /** Motion changes neither who the vehicle is nor who owns it, and only shortens its route. */
  ghost predicate SameVehicle(a: VehicleState, b: VehicleState) {
    && b.id == a.id && b.capacity == a.capacity && b.homeCell == a.homeCell
    && b.ownerNode == a.ownerNode && b.version == a.version
    && SuffixOf(b.route, a.route)
  }

  lemma RestSuffix(route: seq<Stop>, now: real)
    requires route != [] && OncePerKind(route)
    ensures SuffixOf(Rest(route, now), route)
  {
    RestIs(route, now);
  }

  lemma SuffixTransitive(a: seq<Stop>, b: seq<Stop>, c: seq<Stop>)
    requires SuffixOf(b, a) && SuffixOf(c, b)
    ensures SuffixOf(c, a)
  {
    forall k | 0 <= k < |c| ensures c[k] == a[|a| - |c|..][k].(boardedAt := c[k].boardedAt) {
      assert c[k] == b[|b| - |c|..][k].(boardedAt := c[k].boardedAt);
      assert b[|b| - |c| + k] == a[|a| - |b|..][|b| - |c| + k].(boardedAt := b[|b| - |c| + k].boardedAt);
    }
  }

  lemma TouchedTransitive(vid: int, a: map<int, RequestState>, b: map<int, RequestState>, c: map<int, RequestState>)
    requires Touched(vid, a, b) && Touched(vid, b, c)
    ensures Touched(vid, a, c)
  {
  }

  lemma RestSound(d: Distance, v: VehicleState, requests: map<int, RequestState>, now: real)
    requires v.route != [] && Sound(d, v, requests)
    ensures var s := v.route[0];
            s.requestId in requests &&
            Sound(d, v.(location := s.location, route := Rest(v.route, now), onboard := Load(v.onboard, v.route, 1)),
                  requests[s.requestId := Stamped(requests[s.requestId], s.stopType, now)])
  {
    RestPaired(v.route, now);
    RestSeats(v, now);
    RestLinked(d, v, requests, now);
    RestCarried(d, v, requests, now);
  }

  /** `r` is `t` after serving its first stop at `now`. */
  ghost predicate Served(t: Tick, r: Tick, now: real)
    requires t.v.route != []
  {
    var s := t.v.route[0];
    && s.requestId in t.requests
    && r.seg == None
    && r.requests == t.requests[s.requestId := Stamped(t.requests[s.requestId], s.stopType, now)]
    && r.v == t.v.(location := s.location, route := Rest(t.v.route, now), onboard := Load(t.v.onboard, t.v.route, 1))
  }

  lemma UpdateServed(d: Distance, w: Leeway, now: real, requests: map<int, RequestState>, id: int, r: RequestState)
    requires AllServed(d, w, now, requests) && r.id == id && RiderServed(d, w, now, r)
    ensures AllServed(d, w, now, requests[id := r])
  {
  }

  lemma UpdateTouched(vid: int, requests: map<int, RequestState>, id: int, stopType: StopType, now: real)
    requires id in requests && requests[id].assignedVehicle == Some(vid)
    ensures Touched(vid, requests, requests[id := Stamped(requests[id], stopType, now)])
  {
  }

  /** Serving the first stop, planned for time `q2`, during the tick at `now`. */
  lemma ServedKeeps(roads: Roads, w: Leeway, t: Tick, r: Tick, loc: Point, route: seq<Stop>, q: real, q2: real, now: real)
    requires t.v.route != [] && Sound(roads.d, t.v, t.requests) && AllServed(roads.d, w, now, t.requests)
    requires t.v.route == route && AllKept(roads.d, loc, q, route, w)
    requires Served(t, r, now) && q2 == q + TravelTime(roads.d, loc, t.v.route[0].location) && now <= q2
    requires t.v.route[0].stopType.Pickup? ==> q2 <= now + w.ride
    ensures TickInv(roads, w, r, q2, now) && TickFrame(t, r)
  {
    var s := t.v.route[0];
    assert AllKept(roads.d, r.v.location, q2, r.v.route, w) by {
      RestKept(roads.d, loc, q, q2, t.v.route, w, now);
    }
    assert Sound(roads.d, r.v, r.requests) by {
      RestSound(roads.d, t.v, t.requests, now);
    }
    assert AllServed(roads.d, w, now, r.requests) by {
      ServedInTime(roads.d, w, loc, q, t.v, t.requests[s.requestId], now);
      UpdateServed(roads.d, w, now, t.requests, s.requestId, Stamped(t.requests[s.requestId], s.stopType, now));
    }
    assert TickFrame(t, r) by {
      RestSuffix(t.v.route, now);
      UpdateTouched(t.v.id, t.requests, s.requestId, s.stopType, now);
    }
  }

  /** What a tick at `now` maintains while it moves a vehicle whose position stands for `q`. */
  ghost predicate TickInv(roads: Roads, w: Leeway, t: Tick, q: real, now: real) {
    match t
    case Tick(v, seg, requests) => VehicleInv(roads, w, v, seg, requests, q) && AllServed(roads.d, w, now, requests)
  }

  /** What a tick leaves alone. */
  ghost predicate TickFrame(a: Tick, b: Tick) {
    match b
    case Tick(v, _, requests) => Touched(a.v.id, a.requests, requests) && SameVehicle(a.v, v)
  }

  lemma FrameTransitive(a: Tick, b: Tick, c: Tick)
    requires TickFrame(a, b) && TickFrame(b, c)
    ensures TickFrame(a, c)
  {
    SuffixTransitive(a.v.route, b.v.route, c.v.route);
    TouchedTransitive(a.v.id, a.requests, b.requests, c.requests);
  }

  /** The promise invariant does not depend on where an empty vehicle is. */
  lemma EmptyAnywhere(roads: Roads, w: Leeway, v: VehicleState, seg: Option<Segment>,
                      requests: map<int, RequestState>, q: real)
    requires v.route == [] && CacheOk(roads, v, seg) && Sound(roads.d, v, requests)
    ensures VehicleInv(roads, w, v, seg, requests, q)
  {
  }

  /** Driving towards the target for `remaining` seconds, short of it. */
  lemma DriveKeeps(roads: Roads, w: Leeway, t: Tick, q: real, q2: real, remaining: real, now: real) returns (r: Tick)
    requires Homing(roads) && TickInv(roads, w, t, q, now) && Target(t.v).Some?
    requires 0.0 < remaining < Left(CurrentSegment(roads, t.v, t.seg, Target(t.v).value)) && q2 == q + remaining
    ensures EndsAt(roads, t, remaining, now, r)
    ensures TickInv(roads, w, r, q2, now) && TickFrame(t, r)
  {
    var target := Target(t.v).value;
    var seg := CurrentSegment(roads, t.v, t.seg, target);
    var v' := Drive(roads, t.v, seg, remaining);
    r := t.(v := v', seg := Some(seg.(elapsed := seg.elapsed + remaining)));
    RoadAhead(roads, t.v, t.seg, target);
    DriveCloser(roads, t.v, t.seg, target, remaining);
    if t.v.route != [] {
      DriveKept(roads.d, t.v.location, v'.location, q, q2, remaining, t.v.route, w);
    }
  }

  /** A pickup that the tick reaches by its end, `next`, it reaches within the leeway for rides. */
  ghost predicate OnPrompt(roads: Roads, w: Leeway, t: Tick, q: real, next: real, now: real) {
    match t
    case Tick(v, _, _) => Prompt(roads.d, v.location, q, v.route, next, now + w.ride)
  }

  lemma PromptFor(roads: Roads, w: Leeway, t: Tick, loc: Point, route: seq<Stop>, q: real, next: real, now: real)
    requires t.v.location == loc && t.v.route == route && Prompt(roads.d, loc, q, route, next, now + w.ride)
    ensures OnPrompt(roads, w, t, q, next, now)
  {
  }

  lemma FirstIsPrompt(roads: Roads, w: Leeway, t: Tick, q: real, q2: real, next: real, now: real)
    requires OnPrompt(roads, w, t, q, next, now) && t.v.route != []
    requires q2 == q + TravelTime(roads.d, t.v.location, t.v.route[0].location) <= next
    ensures t.v.route[0].stopType.Pickup? ==> q2 <= now + w.ride
  {
    assert PromptAt(roads.d, t.v.location, q, t.v.route, next, now + w.ride, 0);
    assert Clock(roads.d, t.v.location, q, t.v.route, 0) == q;
  }

  /** Arriving at the first stop. */
  lemma StopReached(roads: Roads, w: Leeway, t: Tick, there: Tick, r: Tick, q: real, q2: real, next: real, now: real)
    requires t.v.route != [] && TickInv(roads, w, t, q, now) && OnPrompt(roads, w, t, q, next, now)
    requires there == t.(v := t.v.(location := there.v.location, distanceTraveled := there.v.distanceTraveled,
                                   busyTime := there.v.busyTime))
    requires r == Arrive(there, t.v.route[0].location, now)
    requires now <= q2 == q + TravelTime(roads.d, t.v.location, t.v.route[0].location) <= next
    ensures TickInv(roads, w, r, q2, now) && TickFrame(t, r) && OnPrompt(roads, w, r, q2, next, now)
  {
    ArriveIs(roads.d, there, now);
    FirstIsPrompt(roads, w, t, q, q2, next, now);
    ServedKeeps(roads, w, there, r, t.v.location, t.v.route, q, q2, now);
    RestPrompt(roads.d, t.v.location, q, q2, t.v.route, now, next, now + w.ride);
    PromptFor(roads, w, r, t.v.route[0].location, Rest(t.v.route, now), q2, next, now);
  }

  /** Driving up to the target and arriving there. */
  lemma ReachKeeps(roads: Roads, w: Leeway, t: Tick, q: real, next: real, remaining: real, now: real)
    returns (r: Tick, q2: real)
    requires Homing(roads) && Target(t.v).Some? && TickInv(roads, w, t, q, now) && OnPrompt(roads, w, t, q, next, now)
    requires Left(CurrentSegment(roads, t.v, t.seg, Target(t.v).value)) <= remaining
    requires now <= q && q + remaining == next
    ensures var seg := CurrentSegment(roads, t.v, t.seg, Target(t.v).value);
            && r == Arrive(t.(v := Drive(roads, t.v, seg, Left(seg))), Target(t.v).value, now)
            && q2 == q + Left(seg)
    ensures q <= q2 && TickInv(roads, w, r, q2, now) && TickFrame(t, r) && Arrivals(r.v) < Arrivals(t.v)
    ensures OnPrompt(roads, w, r, q2, next, now)
  {
    var target := Target(t.v).value;
    var seg := CurrentSegment(roads, t.v, t.seg, target);
    RoadAhead(roads, t.v, t.seg, target);
    assert roads.d(t.v.location, target) >= 0.0;
    var there := t.(v := Drive(roads, t.v, seg, Left(seg)));
    r, q2 := Arrive(there, target, now), q + Left(seg);
    if t.v.route != [] {
      StopReached(roads, w, t, there, r, q, q2, next, now);
    } else {
      EmptyAnywhere(roads, w, r.v, r.seg, r.requests, q2);
    }
  }

  /** `end` is where the tick ends. */
  ghost predicate EndsAt(roads: Roads, t: Tick, remaining: real, now: real, end: Tick) {
    match end
    case Tick(v, seg, requests) => Tick(v, seg, requests) == Advance(roads, t, remaining, now)
  }

  /** Nothing to do: the seconds are used up, or there is nowhere to go. */
  lemma IdleKeeps(roads: Roads, w: Leeway, t: Tick, q: real, next: real, remaining: real, now: real) returns (end: Tick)
    requires TickInv(roads, w, t, q, now) && 0.0 <= remaining && q + remaining == next
    requires remaining == 0.0 || Target(t.v).None?
    ensures EndsAt(roads, t, remaining, now, end)
    ensures TickInv(roads, w, end, next, now) && TickFrame(t, end)
  {
    if remaining == 0.0 {
      end := t;
      assert q == next;
    } else {
      end := Tick(t.v, None, t.requests);
      EmptyAnywhere(roads, w, t.v, None, t.requests, next);
    }
  }

  lemma EndsAfterReach(roads: Roads, t: Tick, remaining: real, left: real, now: real, r: Tick, end: Tick)
    requires 0.0 < remaining && Target(t.v).Some?
    requires var seg := CurrentSegment(roads, t.v, t.seg, Target(t.v).value);
             && 0.0 <= left == remaining - Left(seg)
             && r == Arrive(t.(v := Drive(roads, t.v, seg, Left(seg))), Target(t.v).value, now)
    requires EndsAt(roads, r, left, now, end)
    ensures EndsAt(roads, t, remaining, now, end)
  {
  }

  /** A tick at time `now`, from a position that stands for `q` with `remaining` seconds to go,
      keeps the invariant and makes the position stand for `next`. */
  lemma {:induction false} AdvanceKeeps(roads: Roads, w: Leeway, t: Tick, q: real, next: real, remaining: real, now: real)
    returns (end: Tick)
    requires Homing(roads) && TickInv(roads, w, t, q, now) && OnPrompt(roads, w, t, q, next, now)
    requires now <= q && 0.0 <= remaining && q + remaining == next
    ensures EndsAt(roads, t, remaining, now, end)
    ensures TickInv(roads, w, end, next, now) && TickFrame(t, end)
    decreases Arrivals(t.v), 1
  {
    if remaining == 0.0 || Target(t.v).None? {
      end := IdleKeeps(roads, w, t, q, next, remaining, now);
    } else if remaining < Left(CurrentSegment(roads, t.v, t.seg, Target(t.v).value)) {
      end := DriveKeeps(roads, w, t, q, next, remaining, now);
    } else {
      end := AdvanceOn(roads, w, t, q, next, remaining, now);
    }
  }

  /** The tick goes on after the next arrival. */
  lemma {:induction false} AdvanceOn(roads: Roads, w: Leeway, t: Tick, q: real, next: real, remaining: real, now: real)
    returns (end: Tick)
    requires Homing(roads) && Target(t.v).Some? && TickInv(roads, w, t, q, now) && OnPrompt(roads, w, t, q, next, now)
    requires 0.0 < remaining && Left(CurrentSegment(roads, t.v, t.seg, Target(t.v).value)) <= remaining
    requires now <= q && q + remaining == next
    ensures EndsAt(roads, t, remaining, now, end)
    ensures TickInv(roads, w, end, next, now) && TickFrame(t, end)
    decreases Arrivals(t.v), 0
  {
    var r, q2 := ReachKeeps(roads, w, t, q, next, remaining, now);
    var left := remaining - Left(CurrentSegment(roads, t.v, t.seg, Target(t.v).value));
    end := AdvanceKeeps(roads, w, r, q2, next, left, now);
    FrameTransitive(t, r, end);
    EndsAfterReach(roads, t, remaining, left, now, r, end);
  }
}
