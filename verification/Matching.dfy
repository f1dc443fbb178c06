/** What becomes of a request that a worker takes up, in every reachable state of the service: it is turned down
    exactly if none of the worker's vehicles can serve it, and else it gets the cheapest way there is. */
module Matching {
  import opened Geo
  import opened Models
  import opened Schedule
  import opened Insertion
  import opened Timetable
  import opened Motion
  import opened Promises
  import opened Riding
  import opened Service
  import opened Store

  /** Vehicle `vid` belongs to the node and can serve the request by driving route `c`. */
  ghost predicate Choice(d: Distance, f: Fleet, r: RequestState, node: Node, vid: int, c: seq<Stop>) {
    && vid in f.store.vehicles && f.store.vehicles[vid].ownerNode == Some(node)
    && CanServe(d, f.store.vehicles[vid], r, f.now, c)
  }

  /** The candidates are exactly the node's vehicles. */
  lemma CandidatesAre(f: Fleet, node: Node, vid: int)
    requires Books(f)
    ensures (exists i :: 0 <= i < |Candidates(f.store, node)| && Candidates(f.store, node)[i].id == vid)
       <==> vid in f.store.vehicles && f.store.vehicles[vid].ownerNode == Some(node)
    ensures forall i :: 0 <= i < |Candidates(f.store, node)| && Candidates(f.store, node)[i].id == vid ==>
              vid in f.store.vehicles && Candidates(f.store, node)[i] == f.store.vehicles[vid]
  {
    var ids := OwnedIds(f.store, f.store.order, node);
    OwnedIdsAre(f.store, f.store.order, node, vid);
    if vid in ids {
      var i :| 0 <= i < |ids| && ids[i] == vid;
      assert Candidates(f.store, node)[i].id == vid;
    }
    forall i | 0 <= i < |ids|
      ensures Candidates(f.store, node)[i] == f.store.vehicles[ids[i]] && Candidates(f.store, node)[i].id == ids[i]
    {
    }
  }

  lemma PendingIsFresh(d: Distance, dt: real, f: Fleet, id: int, vid: int)
    requires Metric(d) && 0.0 < dt && Reachable(d, dt, f) && vid in f.store.vehicles
    requires id in f.requests && f.requests[id].status.Pending?
    ensures f.requests[id].id == id && Fresh(f.store.vehicles[vid].route, id)
  {
    ReachableIsWithin(d, dt, f);
    ReachableInv(d, dt, Leeway(dt, dt), f);
    assert RideOk(StraightRoads(d), Leeway(dt, dt), f, vid, f.q);
    UnassignedIsFresh(d, f.store.vehicles[vid], f.requests[id], f.requests);
  }

  lemma CandidatesFresh(d: Distance, dt: real, f: Fleet, id: int, node: Node)
    requires Metric(d) && 0.0 < dt && Reachable(d, dt, f) && id in f.requests && f.requests[id].status.Pending?
    ensures Books(f) && f.requests[id].id == id
    ensures forall i :: 0 <= i < |Candidates(f.store, node)| ==> Fresh(Candidates(f.store, node)[i].route, id)
  {
    ReachableIsWithin(d, dt, f);
    ReachableInv(d, dt, Leeway(dt, dt), f);
    forall i | 0 <= i < |Candidates(f.store, node)| ensures Fresh(Candidates(f.store, node)[i].route, id) {
      CandidateIsOwned(f.store, node, i);
      PendingIsFresh(d, dt, f, id, Candidates(f.store, node)[i].id);
    }
  }

  /** A pending request can be turned down by a worker if and only if none of the worker's vehicles can serve it,
      by whatever route. */
  lemma RejectedIff(d: Distance, dt: real, f: Fleet, id: int, node: Node)
    requires Metric(d) && 0.0 < dt && Reachable(d, dt, f) && id in f.requests && f.requests[id].status.Pending?
    ensures Enabled(StraightRoads(d), f, Dispatch(id, node, None))
       <==> forall vid, c :: !Choice(d, f, f.requests[id], node, vid, c)
  {
    var r, vs := f.requests[id], Candidates(f.store, node);
    CandidatesFresh(d, dt, f, id, node);
    NoPlanIff(d, r, vs, f.now);
    if Winner(d, r, vs, f.now, None) {
      forall vid, c ensures !Choice(d, f, r, node, vid, c) {
        CandidatesAre(f, node, vid);
      }
    } else {
      var i, c :| 0 <= i < |vs| && CanServe(d, vs[i], r, f.now, c);
      CandidateIsOwned(f.store, node, i);
      assert Choice(d, f, r, node, vs[i].id, c);
    }
  }

  /** A plan that a worker may commit is a way to serve the request on one of its vehicles, and no other way, on any of
      its vehicles, costs less. */
  lemma AssignedToTheCheapest(d: Distance, dt: real, f: Fleet, id: int, node: Node, plan: Plan)
    requires Metric(d) && 0.0 < dt && Reachable(d, dt, f) && id in f.requests && f.requests[id].status.Pending?
    requires Enabled(StraightRoads(d), f, Dispatch(id, node, Some(plan)))
    ensures Choice(d, f, f.requests[id], node, plan.vehicleId, plan.newRoute)
    ensures Costs(d, f.store.vehicles[plan.vehicleId], plan.newRoute, plan.addedCost)
    ensures forall vid, c, cost ::
              Choice(d, f, f.requests[id], node, vid, c) && Costs(d, f.store.vehicles[vid], c, cost) ==>
              plan.addedCost <= cost
  {
    var r, vs := f.requests[id], Candidates(f.store, node);
    CandidatesFresh(d, dt, f, id, node);
    var i := PlanIsCheapest(d, r, vs, f.now, plan);
    CandidateIsOwned(f.store, node, i);
    forall vid, c, cost | Choice(d, f, r, node, vid, c) && Costs(d, f.store.vehicles[vid], c, cost)
      ensures plan.addedCost <= cost
    {
      CandidatesAre(f, node, vid);
      var j :| 0 <= j < |vs| && vs[j].id == vid;
      assert NoneCheaper(d, vs[j], r, f.now, plan.addedCost, j < i);
    }
  }

  // ---------------------------------------------------------------- stops and riders

  /** Stop `s` of vehicle `vid` is where its rider wants to get on or off, under the limits the rider has set. */
  ghost predicate AsAsked(d: Distance, vid: int, s: Stop, r: RequestState) {
    && r.id == s.requestId && r.assignedVehicle == Some(vid)
    && s.location == (if s.stopType.Pickup? then r.origin else r.destination)
    && s.partySize == r.partySize && s.requestTime == r.requestTime && s.maxWait == r.maxWait
    && s.directTime == 150.0 * d(r.origin, r.destination) && s.maxDetour == r.maxDetourFactor
    && (s.stopType.Dropoff? ==> s.boardedAt == r.pickupTime)
  }

  /** Every stop on a route is where its rider asked to get on or off. */
  lemma StopsAreAsAsked(d: Distance, dt: real, f: Fleet, vid: int, k: nat)
    requires Metric(d) && 0.0 < dt && Reachable(d, dt, f)
    requires vid in f.store.vehicles && k < |f.store.vehicles[vid].route|
    ensures var s := f.store.vehicles[vid].route[k];
            s.requestId in f.requests && AsAsked(d, vid, s, f.requests[s.requestId])
  {
    ReachableIsWithin(d, dt, f);
    ReachableInv(d, dt, Leeway(dt, dt), f);
    assert RideOk(StraightRoads(d), Leeway(dt, dt), f, vid, f.q);
    assert LinkedStop(d, vid, f.store.vehicles[vid].route[k], f.requests);
  }

  // ---------------------------------------------------------------- repositioning

  /** A vehicle with stops to make is not on its way to a better place to wait. */
  ghost predicate Settled(f: Fleet) {
    forall id :: id in f.store.vehicles ==>
      (f.store.vehicles[id].route != [] ==> f.store.vehicles[id].repositionTarget.None?)
  }

  lemma {:induction false} AdvanceSettled(roads: Roads, t: Tick, remaining: real, now: real)
    requires t.v.route != [] ==> t.v.repositionTarget.None?
    ensures var v := Advance(roads, t, remaining, now).v; v.route != [] ==> v.repositionTarget.None?
    decreases Arrivals(t.v)
  {
    if remaining > 0.0 && Target(t.v).Some? {
      var target := Target(t.v).value;
      var seg := CurrentSegment(roads, t.v, t.seg, target);
      if remaining >= Left(seg) {
        var there := t.(v := Drive(roads, t.v, seg, Left(seg)));
        AdvanceSettled(roads, Arrive(there, target, now), remaining - Left(seg), now);
      }
    }
  }

  lemma {:induction false} MovedSettled(roads: Roads, dt: real, f: Fleet, k: nat)
    requires Settled(f) && k <= |f.store.order|
    ensures Settled(Moved(roads, dt, f, k))
  {
    if k > 0 {
      MovedSettled(roads, dt, f, k - 1);
      var g, id := Moved(roads, dt, f, k - 1), f.store.order[k - 1];
      if id in g.store.vehicles {
        AdvanceSettled(roads, TickOf(g, id), dt, f.now);
      }
    }
  }

  lemma BookingSettled(f: Fleet, id: int, node: Node, plan: Plan)
    requires Settled(f) && id in f.requests
    ensures Settled(Confirm(f, id, node, plan))
  {
  }

  lemma StepSettled(roads: Roads, dt: real, f: Fleet, e: Event)
    requires Settled(f) && Enabled(roads, f, e)
    ensures Settled(Service.After(roads, dt, f, e))
  {
    match e
    case WorldTick => MovedSettled(roads, dt, f, |f.store.order|);
    case Dispatch(id, node, plan) =>
      if plan.Some? {
        BookingSettled(f, id, node, plan.value);
      }
    case _ =>
  }

  /** In every run, on any roads, a vehicle that is given work gives up repositioning, and takes it up again only when it
      has no stops left. */
  lemma {:induction false} AlwaysSettled(roads: Roads, dt: real, run: seq<Fleet>, events: seq<Event>, i: nat)
    requires Service.Run(roads, dt, run, events) && i < |run|
    ensures Settled(run[i])
  {
    if i > 0 {
      AlwaysSettled(roads, dt, run, events, i - 1);
      StepSettled(roads, dt, run[i - 1], events[i - 1]);
    }
  }
}
