/** When riders get what the engine promises them to the second: exactly in runs without leeway.  For any
    leeway there is a run that uses it, with one vehicle and one rider on a line. */
module Slack {
  import opened Geo
  import opened Models
  import opened Schedule
  import opened Insertion
  import opened Motion
  import opened Promises
  import opened Riding
  import opened Service
  import Store

  /** No rider is picked up later than the limit. */
  ghost predicate WaitLimitKept(d: Distance, dt: real, w: Leeway) {
    forall f, id :: ReachableWithin(d, dt, w, f) && id in f.requests && f.requests[id].pickupTime.Some? ==>
      f.requests[id].pickupTime.value - f.requests[id].requestTime <= f.requests[id].maxWait
  }

  /** No ride takes longer than the limit. */
  ghost predicate RideLimitKept(d: Distance, dt: real, w: Leeway) {
    forall f, id ::
      ReachableWithin(d, dt, w, f) && id in f.requests && f.requests[id].dropoffTime.Some?
      && f.requests[id].pickupTime.Some? && f.requests[id].DirectTravelTime(d) > 0.0 ==>
        f.requests[id].dropoffTime.value - f.requests[id].pickupTime.value <= f.requests[id].RideLimit(d)
  }

  // ---------------------------------------------------------------- one vehicle, one rider

  /** One vehicle at the origin, owned by node 7. */
  function Car(): VehicleState {
    VehicleState(0, Point(0.0, 0.0), 4, [], 0, None, Some(7), 0, None, 0.0, 0.0)
  }

  function Start(): Fleet {
    Fleet(0.0, 0.0, Store.StoreState(map[0 := Car()], map[0 := Car()], [0], 0, 0), map[], map[])
  }

  /** Someone who wants to go from kilometre `a` to kilometre `b`, without any detour. */
  function Rider(time: real, a: real, b: real, patience: real): RequestState {
    RequestState(1, Point(a, 0.0), Point(b, 0.0), time, 1, patience, 1.0, None, Pending, None, None, None, None)
  }

  function Stops(d: Distance, r: RequestState): seq<Stop> {
    [r.StopFor(d, Pickup), r.StopFor(d, Dropoff)]
  }

  /** The only plan there is. */
  function OnlyPlan(d: Distance, r: RequestState, cost: real): Plan {
    Plan(0, 0, 1, cost, Stops(d, r), 0)
  }

  lemma Trip(d: Distance, a: real, b: real)
    requires OnLine(d) && a <= b
    ensures TravelTime(d, Point(a, 0.0), Point(b, 0.0)) == 150.0 * (b - a)
  {
  }

  lemma StopTimes(d: Distance, time: real, a: real, b: real, patience: real, now: real)
    requires OnLine(d) && 0.0 <= a <= b
    ensures var s := Stops(d, Rider(time, a, b, patience));
            && Clock(d, Point(0.0, 0.0), now, s, 1) == now + 150.0 * a
            && Clock(d, Point(0.0, 0.0), now, s, 2) == now + 150.0 * b
            && s[1].directTime == s[1].RideLimit() == 150.0 * (b - a)
  {
    Trip(d, 0.0, a);
    Trip(d, a, b);
    assert Clock(d, Point(0.0, 0.0), now, Stops(d, Rider(time, a, b, patience)), 0) == now;
  }

  lemma StopsFit(d: Distance, now: real, a: real, b: real, patience: real)
    requires OnLine(d) && 0.0 <= a <= b && 150.0 * a <= patience
    ensures Fits(d, Car(), Rider(now, a, b, patience), now, 0, 0)
    ensures Candidate(d, Car(), Rider(now, a, b, patience), 0, 0) == Stops(d, Rider(now, a, b, patience))
    ensures Added(d, Car(), Rider(now, a, b, patience), 0, 0) == 150.0 * b
  {
    var r := Rider(now, a, b, patience);
    assert Candidate(d, Car(), r, 0, 0) == Stops(d, r);
    StopTimes(d, now, a, b, patience, now);
    StopTimes(d, now, a, b, patience, 0.0);
    assert LastPickup(Stops(d, r), 1, 1) == Some(0);
    assert Load(0, Stops(d, r), 1) == Load(0, Stops(d, r), 0) + 1;
    assert OnTime(d, Point(0.0, 0.0), now, Stops(d, r), 0);
    assert OnTime(d, Point(0.0, 0.0), now, Stops(d, r), 1);
  }

  lemma OnlyPlanWins(d: Distance, vs: seq<VehicleState>, now: real, a: real, b: real, patience: real)
    requires OnLine(d) && vs == [Car()] && 0.0 <= a <= b && 150.0 * a <= patience
    ensures var r := Rider(now, a, b, patience); Winner(d, r, vs, now, Some(OnlyPlan(d, r, 150.0 * b)))
  {
    var r := Rider(now, a, b, patience);
    StopsFit(d, now, a, b, patience);
    assert WinnerAt(d, r, vs, now, OnlyPlan(d, r, 150.0 * b), 0);
  }

  /** The vehicle with the rider's stops. */
  function Busy(d: Distance, r: RequestState): VehicleState {
    Car().(route := Stops(d, r), version := 1)
  }

  /** The rider has just called, and nothing else has happened to vehicle or rider. */
  function Called(now: real, q: real, r: RequestState): Fleet {
    Start().(now := now, q := q, requests := map[1 := r])
  }

  /** The rider has been given the vehicle at time `at`. */
  function Given(d: Distance, at: real, now: real, q: real, r: RequestState): Fleet {
    Fleet(now, q, Store.StoreState(map[0 := Busy(d, r)], map[0 := Busy(d, r)], [0], 0, 0), map[],
          map[1 := Assignment(r, 0, at)])
  }

  lemma GivenTheCar(d: Distance, dt: real, now: real, q: real, a: real, b: real, patience: real)
    requires OnLine(d) && 0.0 <= a <= b && 150.0 * a <= patience
    ensures var r := Rider(now, a, b, patience);
            && Enabled(StraightRoads(d), Called(now, q, r), Dispatch(1, 7, Some(OnlyPlan(d, r, 150.0 * b))))
            && Service.After(StraightRoads(d), dt, Called(now, q, r), Dispatch(1, 7, Some(OnlyPlan(d, r, 150.0 * b))))
               == Given(d, now, now, q, r)
  {
    var r := Rider(now, a, b, patience);
    var f := Called(now, q, r);
    assert [0][..0] == [];
    assert Store.OwnedIds(f.store, [0], 7) == Store.OwnedIds(f.store, [], 7) + [0];
    assert Candidates(f.store, 7) == [Car()];
    OnlyPlanWins(d, [Car()], now, a, b, patience);
    assert Confirm(f, 1, 7, OnlyPlan(d, r, 150.0 * b)) == Given(d, now, now, q, r);
  }

  /** A world tick of the only vehicle. */
  lemma TickOfOne(d: Distance, dt: real, f: Fleet)
    requires f.store.order == [0] && 0 in f.store.vehicles && f.now == f.q
    ensures Service.After(StraightRoads(d), dt, f, WorldTick) ==
            WithTick(f, 0, Advance(StraightRoads(d), TickOf(f, 0), dt, f.now)).(q := f.q + dt)
  {
    assert Moved(StraightRoads(d), dt, f, 0) == f;
  }

  lemma FirstTick(d: Distance, dt: real)
    requires 0.0 < dt
    ensures Service.After(StraightRoads(d), dt, Start(), WorldTick) == Start().(q := dt)
  {
    var f := Start();
    TickOfOne(d, dt, f);
    assert Advance(StraightRoads(d), TickOf(f, 0), dt, 0.0) == TickOf(f, 0);
    assert f.store.vehicles[0 := Car()] == f.store.vehicles;
    assert WithTick(f, 0, TickOf(f, 0)) == f;
  }

  lemma TimePasses(d: Distance, dt: real, w: Leeway, f: Fleet, until: real)
    requires ReachableWithin(d, dt, w, f) && f.now <= until <= f.q
    ensures ReachableWithin(d, dt, w, f.(now := until))
  {
    ReachesAfter(d, dt, w, f, Wait(until), f.(now := until));
  }

  lemma FirstTickReaches(d: Distance, dt: real, w: Leeway)
    requires 0.0 < dt
    ensures ReachableWithin(d, dt, w, Start().(q := dt))
  {
    ReachesInitial(d, dt, w, Start());
    FirstTick(d, dt);
    ReachesAfter(d, dt, w, Start(), WorldTick, Start().(q := dt));
  }

  /** The rider calls and is given the vehicle at once. */
  lemma CallsAndGetsIt(d: Distance, dt: real, w: Leeway, now: real, q: real, a: real, b: real, patience: real)
    requires OnLine(d) && 0.0 <= a <= b && 150.0 * a <= patience && q <= now + w.wait
    requires ReachableWithin(d, dt, w, Start().(now := now, q := q))
    ensures ReachableWithin(d, dt, w, Given(d, now, now, q, Rider(now, a, b, patience)))
  {
    var r := Rider(now, a, b, patience);
    ReachesAfter(d, dt, w, Start().(now := now, q := q), Emit(r), Called(now, q, r));
    GivenTheCar(d, dt, now, q, a, b, patience);
    ReachesAfter(d, dt, w, Called(now, q, r), Dispatch(1, 7, Some(OnlyPlan(d, r, 150.0 * b))), Given(d, now, now, q, r));
  }

  // ---------------------------------------------------------------- ticks on a line

  /** A vehicle without a cached piece of road reaches its first stop within the tick. */
  lemma Reaches(d: Distance, t: Tick, used: real, remaining: real, now: real) returns (r: Tick)
    requires t.v.route != [] && t.seg.None? && 0.0 < remaining
    requires used == TravelTime(d, t.v.location, t.v.route[0].location) && 0.0 <= used <= remaining
    ensures Advance(StraightRoads(d), t, remaining, now) ==
            Advance(StraightRoads(d), r, remaining - used, now)
    ensures r.seg.None? && r.v.location == t.v.route[0].location
    ensures exists there: VehicleState ::
              && there.route == t.v.route && there.onboard == t.v.onboard
              && r == Arrive(Tick(there, None, t.requests), t.v.route[0].location, now)
  {
    var target := t.v.route[0].location;
    var seg := CurrentSegment(StraightRoads(d), t.v, t.seg, target);
    var there := Drive(StraightRoads(d), t.v, seg, Left(seg));
    assert Left(seg) == used;
    r := Arrive(t.(v := there), target, now);
    assert r == Arrive(Tick(there, None, t.requests), target, now);
  }

  /** A vehicle without a cached piece of road drives on until the tick ends. */
  lemma DrivesOn(d: Distance, t: Tick, whole: real, remaining: real, now: real) returns (r: Tick)
    requires t.v.route != [] && t.seg.None?
    requires whole == TravelTime(d, t.v.location, t.v.route[0].location) && 0.0 < remaining < whole
    ensures r == Advance(StraightRoads(d), t, remaining, now)
    ensures r.requests == t.requests && r.v.route == t.v.route
    ensures r.seg.Some? && r.seg.value.to == t.v.route[0].location && Left(r.seg.value) == whole - remaining
  {
    var seg := CurrentSegment(StraightRoads(d), t.v, t.seg, t.v.route[0].location);
    assert Left(seg) == whole;
    r := Advance(StraightRoads(d), t, remaining, now);
  }

  /** Arriving at the rider's pickup, with the dropoff to come. */
  lemma Boards(d: Distance, v: VehicleState, r: RequestState, at: RequestState, now: real, t: Tick)
    requires v.route == Stops(d, r) && r.id == 1 && at.id == 1
    requires t == Arrive(Tick(v, None, map[1 := at]), r.origin, now)
    ensures t.requests == map[1 := at.(status := Onboard, pickupTime := Some(now))]
    ensures t.v.route == [r.StopFor(d, Dropoff).(boardedAt := Some(now))]
  {
    var p, q := r.StopFor(d, Pickup), r.StopFor(d, Dropoff);
    assert StampBoarding([q], 1, now) == [q.(boardedAt := Some(now))];
    assert [p, q][1..] == [q];
    assert StampBoarding([p, q], 1, now) == [p] + StampBoarding([q], 1, now);
  }

  /** The tick in which the rider gets on, and does not arrive yet. */
  lemma BoardingTick(d: Distance, at: real, a: real, b: real, patience: real, w: RequestState, dt: real, now: real)
    returns (t: Tick)
    requires OnLine(d) && 0.0 <= a <= b && 150.0 * a < dt < 150.0 * b
    requires var r := Rider(at, a, b, patience); w == Assignment(r, 0, at)
    ensures t == Advance(StraightRoads(d), Tick(Busy(d, Rider(at, a, b, patience)), None, map[1 := w]), dt, now)
    ensures t.requests == map[1 := w.(status := Onboard, pickupTime := Some(now))]
    ensures t.v.route == [Rider(at, a, b, patience).StopFor(d, Dropoff).(boardedAt := Some(now))]
    ensures t.seg.Some? && t.seg.value.to == Point(b, 0.0) && Left(t.seg.value) == 150.0 * b - dt
  {
    var r := Rider(at, a, b, patience);
    Trip(d, 0.0, a);
    Trip(d, a, b);
    var start := Tick(Busy(d, r), None, map[1 := w]);
    var on := Reaches(d, start, 150.0 * a, dt, now);
    var there: VehicleState :| there.route == start.v.route && there.onboard == start.v.onboard
                            && on == Arrive(Tick(there, None, start.requests), r.origin, now);
    Boards(d, there, r, w, now, on);
    t := DrivesOn(d, on, 150.0 * (b - a), dt - 150.0 * a, now);
  }

  // ---------------------------------------------------------------- a late pickup

  /** A rider at the vehicle's door, who calls `lead` seconds before the next tick and will not wait. */
  function Hasty(dt: real, lead: real): RequestState {
    Rider(dt - lead, 0.0, dt, 0.0)
  }

  /** Where the run is before the second tick. */
  lemma HastyIsGiven(d: Distance, dt: real, lead: real, w: Leeway)
    requires OnLine(d) && 0.0 < lead <= dt && lead <= w.wait && w.Ok()
    ensures ReachableWithin(d, dt, w, Given(d, dt - lead, dt, dt, Hasty(dt, lead)))
  {
    var given := Given(d, dt - lead, dt - lead, dt, Hasty(dt, lead));
    FirstTickReaches(d, dt, w);
    TimePasses(d, dt, w, Start().(q := dt), dt - lead);
    CallsAndGetsIt(d, dt, w, dt - lead, dt, 0.0, dt, 0.0);
    TimePasses(d, dt, w, given, dt);
  }

  /** `f` one tick later. */
  ghost function Ticked(d: Distance, dt: real, f: Fleet): Fleet
    requires 0 in f.store.vehicles
  {
    WithTick(f, 0, Advance(StraightRoads(d), TickOf(f, 0), dt, f.now)).(q := f.q + dt)
  }

  lemma TickReaches(d: Distance, dt: real, w: Leeway, f: Fleet)
    requires ReachableWithin(d, dt, w, f) && f.store.order == [0] && f.store.vehicles.Keys == {0} && f.now == f.q
    requires StartsPrompt(d, w, f, 0, f.q + dt)
    ensures ReachableWithin(d, dt, w, Ticked(d, dt, f))
  {
    TickOfOne(d, dt, f);
    ReachesAfter(d, dt, w, f, WorldTick, Ticked(d, dt, f));
  }

  /** For every lead there is a run in which a rider who would not wait has to wait that long. */
  lemma WaitsForTheLead(d: Distance, dt: real, lead: real, w: Leeway) returns (f: Fleet)
    requires OnLine(d) && 0.0 < lead <= dt && lead <= w.wait && w.Ok()
    ensures ReachableWithin(d, dt, w, f)
    ensures 1 in f.requests && f.requests[1].pickupTime.Some?
    ensures f.requests[1].pickupTime.value - f.requests[1].requestTime == f.requests[1].maxWait + lead
  {
    var r := Hasty(dt, lead);
    var before := Given(d, dt - lead, dt, dt, r);
    HastyIsGiven(d, dt, lead, w);
    StopTimes(d, dt - lead, 0.0, dt, 0.0, dt);
    TickReaches(d, dt, w, before);
    assert TickOf(before, 0) == Tick(Busy(d, r), None, map[1 := Assignment(r, 0, dt - lead)]);
    var t := BoardingTick(d, dt - lead, 0.0, dt, 0.0, Assignment(r, 0, dt - lead), dt, dt);
    f := Ticked(d, dt, before);
  }

  // ---------------------------------------------------------------- a long ride

  /** A rider `late` seconds from the vehicle, whose direct ride takes a tick less `over` seconds. */
  function Brisk(dt: real, late: real, over: real): RequestState {
    Rider(0.0, late / 150.0, (dt + late - over) / 150.0, late)
  }

  /** Without stops the vehicle serves nobody. */
  lemma {:induction false} ServesNobody(d: Distance, t: Tick, remaining: real, now: real)
    requires t.v.route == []
    ensures Advance(StraightRoads(d), t, remaining, now).requests == t.requests
    decreases Arrivals(t.v)
  {
    if remaining > 0.0 && Target(t.v).Some? {
      var seg := CurrentSegment(StraightRoads(d), t.v, t.seg, Target(t.v).value);
      if remaining >= Left(seg) {
        var there := t.(v := Drive(StraightRoads(d), t.v, seg, Left(seg)));
        ServesNobody(d, Arrive(there, Target(t.v).value, now), remaining - Left(seg), now);
      }
    }
  }

  /** Arriving at the rider's dropoff. */
  lemma Alights(t: Tick, s: Stop, w: RequestState, now: real, r: Tick)
    requires t.requests == map[1 := w] && w.id == 1 && t.v.route == [s] && s.stopType.Dropoff? && s.requestId == 1
    requires r == Arrive(t, s.location, now)
    ensures r.v.route == [] && r.requests == map[1 := w.(status := Completed, dropoffTime := Some(now))]
  {
  }

  /** The tick in which the rider gets off. */
  lemma DropoffTick(d: Distance, t: Tick, s: Stop, w: RequestState, dt: real, now: real) returns (r: Tick)
    requires t.requests == map[1 := w] && w.id == 1 && t.v.route == [s] && s.stopType.Dropoff? && s.requestId == 1
    requires t.seg.Some? && t.seg.value.to == s.location && 0.0 < dt && Left(t.seg.value) <= dt
    ensures r == Advance(StraightRoads(d), t, dt, now)
    ensures r.requests == map[1 := w.(status := Completed, dropoffTime := Some(now))]
  {
    var roads, seg := StraightRoads(d), t.seg.value;
    assert Target(t.v) == Some(s.location) && CurrentSegment(roads, t.v, t.seg, s.location) == seg;
    var there := t.(v := Drive(roads, t.v, seg, Left(seg)));
    var off := Arrive(there, s.location, now);
    Alights(there, s, w, now, off);
    r := Advance(roads, t, dt, now);
    assert r == Advance(roads, off, dt - Left(seg), now);
    ServesNobody(d, off, dt - Left(seg), now);
  }

  /** Where the run is before the first tick: the rider has the vehicle. */
  lemma BriskIsGiven(d: Distance, dt: real, late: real, over: real, w: Leeway) returns (f: Fleet)
    requires OnLine(d) && 0.0 < over < late < dt && late <= w.ride && w.Ok()
    ensures f == Given(d, 0.0, 0.0, 0.0, Brisk(dt, late, over)) && ReachableWithin(d, dt, w, f)
  {
    f := Given(d, 0.0, 0.0, 0.0, Brisk(dt, late, over));
    ReachesInitial(d, dt, w, Start());
    CallsAndGetsIt(d, dt, w, 0.0, 0.0, late / 150.0, (dt + late - over) / 150.0, late);
  }

  lemma BriskStartsPrompt(d: Distance, dt: real, late: real, over: real, w: Leeway)
    requires OnLine(d) && 0.0 < over < late < dt && late <= w.ride
    ensures StartsPrompt(d, w, Given(d, 0.0, 0.0, 0.0, Brisk(dt, late, over)), 0, dt)
  {
    StopTimes(d, 0.0, late / 150.0, (dt + late - over) / 150.0, late, 0.0);
  }

  /** Where the run is before the second tick: the rider is on board. */
  lemma BriskIsOnBoard(d: Distance, dt: real, late: real, over: real, w: Leeway) returns (f: Fleet)
    requires OnLine(d) && 0.0 < over < late < dt && late <= w.ride && w.Ok()
    ensures ReachableWithin(d, dt, w, f) && f.store.order == [0] && f.store.vehicles.Keys == {0}
    ensures f.now == f.q == dt && RidesAlong(d, TickOf(f, 0), Brisk(dt, late, over), late - over)
  {
    var given := BriskIsGiven(d, dt, late, over, w);
    BriskStartsPrompt(d, dt, late, over, w);
    TickReaches(d, dt, w, given);
    f := Ticked(d, dt, given).(now := dt);
    BriskBoards(d, dt, late, over, TickOf(given, 0));
    TimePasses(d, dt, w, Ticked(d, dt, given), dt);
  }

  /** The rider got on at time 0 and has `left` seconds to go. */
  ghost predicate RidesAlong(d: Distance, t: Tick, r: RequestState, left: real) {
    && t.v.route == [r.StopFor(d, Dropoff).(boardedAt := Some(0.0))]
    && t.requests == map[1 := Assignment(r, 0, 0.0).(status := Onboard, pickupTime := Some(0.0))]
    && t.seg.Some? && t.seg.value.to == r.destination && Left(t.seg.value) == left
  }

  lemma BriskBoards(d: Distance, dt: real, late: real, over: real, t: Tick)
    requires OnLine(d) && 0.0 < over < late < dt
    requires t == Tick(Busy(d, Brisk(dt, late, over)), None, map[1 := Assignment(Brisk(dt, late, over), 0, 0.0)])
    ensures RidesAlong(d, Advance(StraightRoads(d), t, dt, 0.0), Brisk(dt, late, over), late - over)
  {
    var w := Assignment(Brisk(dt, late, over), 0, 0.0);
    var r := BoardingTick(d, 0.0, late / 150.0, (dt + late - over) / 150.0, late, w, dt, 0.0);
  }

  /** If a pickup may come `late` seconds into a tick, there is a run in which a ride takes longer than it may,
      by any time less than that. */
  lemma RidesLonger(d: Distance, dt: real, late: real, over: real, w: Leeway) returns (f: Fleet)
    requires OnLine(d) && 0.0 < over < late < dt && late <= w.ride && w.Ok()
    ensures ReachableWithin(d, dt, w, f)
    ensures 1 in f.requests && f.requests[1].pickupTime.Some? && f.requests[1].dropoffTime.Some?
    ensures f.requests[1].DirectTravelTime(d) > 0.0
    ensures f.requests[1].dropoffTime.value - f.requests[1].pickupTime.value
         == f.requests[1].RideLimit(d) + over
  {
    var before := BriskIsOnBoard(d, dt, late, over, w);
    TickReaches(d, dt, w, before);
    var t := TickOf(before, 0);
    var r := DropoffTick(d, t, t.v.route[0], t.requests[1], dt, dt);
    f := Ticked(d, dt, before);
    assert f.requests == r.requests;
    Trip(d, late / 150.0, (dt + late - over) / 150.0);
  }

  // ---------------------------------------------------------------- when the limits are kept

  function Less(a: real, b: real): real {
    if a < b then a else b
  }

  /** The waiting limit is kept in all runs within a leeway exactly if plans are made only for positions that
      stand for now. */
  lemma WaitLimitKeptIff(d: Distance, dt: real, w: Leeway)
    requires Metric(d) && OnLine(d) && 0.0 < dt && w.Ok()
    ensures WaitLimitKept(d, dt, w) <==> w.wait == 0.0
  {
    if w.wait == 0.0 {
      forall f, id | ReachableWithin(d, dt, w, f) && id in f.requests && f.requests[id].pickupTime.Some?
        ensures f.requests[id].pickupTime.value - f.requests[id].requestTime <= f.requests[id].maxWait
      {
        RidersAreServedWithin(d, dt, w, f, id);
      }
    } else {
      var f := WaitsForTheLead(d, dt, Less(w.wait, dt), w);
    }
  }

  /** The limit of rides is kept in all runs within a leeway exactly if, besides, passengers get on only at
      the beginning of a tick. */
  lemma RideLimitKeptIff(d: Distance, dt: real, w: Leeway)
    requires Metric(d) && OnLine(d) && 0.0 < dt && w.Ok()
    ensures RideLimitKept(d, dt, w) <==> w.ride == 0.0
  {
    if w.ride == 0.0 {
      forall f, id |
        ReachableWithin(d, dt, w, f) && id in f.requests && f.requests[id].dropoffTime.Some?
        && f.requests[id].pickupTime.Some? && f.requests[id].DirectTravelTime(d) > 0.0
        ensures f.requests[id].dropoffTime.value - f.requests[id].pickupTime.value <= f.requests[id].RideLimit(d)
      {
        RidersAreServedWithin(d, dt, w, f, id);
      }
    } else {
      var late := Less(w.ride, dt / 2.0);
      var f := RidesLonger(d, dt, late, late / 2.0, w);
    }
  }

  /** Without a leeway the tick in both bounds is needed, whatever the tick: a rider can wait for exactly the
      limit and a tick, and a ride can exceed its limit by any time less than a tick. */
  lemma TheTickIsNeeded(d: Distance, dt: real, over: real) returns (f: Fleet, g: Fleet)
    requires Metric(d) && OnLine(d) && 0.0 < over < dt
    ensures Reachable(d, dt, f) && 1 in f.requests && f.requests[1].pickupTime.Some?
    ensures f.requests[1].pickupTime.value - f.requests[1].requestTime == f.requests[1].maxWait + dt
    ensures Reachable(d, dt, g) && 1 in g.requests
    ensures g.requests[1].pickupTime.Some? && g.requests[1].dropoffTime.Some? && g.requests[1].DirectTravelTime(d) > 0.0
    ensures g.requests[1].dropoffTime.value - g.requests[1].pickupTime.value == g.requests[1].RideLimit(d) + over
  {
    f := WaitsForTheLead(d, dt, dt, Leeway(dt, dt));
    ReachableIsWithin(d, dt, f);
    g := RidesLonger(d, dt, (over + dt) / 2.0, over, Leeway(dt, dt));
    ReachableIsWithin(d, dt, g);
  }
}
