/** The service as a whole: requests arrive, workers plan and commit, owners change,
    idle vehicles are repositioned, and the world moves the fleet, in any order.
    The promises to riders hold in every state of every run. */
module Service {
  import opened Geo
  import opened Models
  import opened Schedule
  import opened Insertion
  import opened Motion
  import opened Promises
  import opened Riding
  import opened Store

  /** `q` is the time the positions stand for, which is when the world ticks next. */
  datatype Fleet = Fleet(
    now: real,
    q: real,
    store: StoreState,
    segs: map<int, Segment>,
    requests: map<int, RequestState>)

  /** One atomic step of some actor. */
  datatype Event =
    | Wait(until: real)
    | Emit(request: RequestState)
    | Dispatch(id: int, node: Node, plan: Option<Plan>)
    | Reassign(vid: int, owner: Node)
    | Reposition(vid: int, target: Point)
    | WorldTick

  /** The vehicles a worker matches against, in listing order. */
  function Candidates(s: StoreState, node: Node): (vs: seq<VehicleState>)
    ensures |vs| == |OwnedIds(s, s.order, node)|
  {
    var ids := OwnedIds(s, s.order, node);
    seq(|ids|, k requires 0 <= k < |ids| => s.vehicles[ids[k]])
  }

  /** A request as the gateway makes it. */
  predicate IsNew(f: Fleet, r: RequestState) {
    && r.id !in f.requests && r.requestTime == f.now
    && r.status.Pending? && r.assignedVehicle.None? && r.pickupTime.None? && r.dropoffTime.None?
  }

  /** When an event can happen.  A request is given to the engine only while it is pending. */
  ghost predicate Enabled(roads: Roads, f: Fleet, e: Event) {
    match e
    case Wait(until) => f.now <= until <= f.q
    case Emit(request) => IsNew(f, request)
    case Dispatch(id, node, plan) =>
      && id in f.requests && f.requests[id].status.Pending?
      && Winner(roads.d, f.requests[id], Candidates(f.store, node), f.now, plan)
    case Reassign(_, _) => true
    case Reposition(vid, _) =>
      vid in f.store.vehicles && f.store.vehicles[vid].route == [] && f.store.vehicles[vid].repositionTarget.None?
    case WorldTick => f.now == f.q
  }

  /** Vehicle `id`, when ticked now until `next`, reaches pickups within the leeway for rides. */
  ghost predicate StartsPrompt(d: Distance, w: Leeway, f: Fleet, id: int, next: real) {
    match f
    case Fleet(now, _, store, _, _) =>
      id in store.vehicles &&
        Prompt(d, store.vehicles[id].location, now, store.vehicles[id].route, next, now + w.ride)
  }

  ghost predicate AllPrompt(d: Distance, w: Leeway, f: Fleet, next: real) {
    match f
    case Fleet(_, _, store, _, _) => forall id :: id in store.vehicles ==> StartsPrompt(d, w, f, id, next)
  }

  /** What a leeway asks of an event, before it happens: that the plan a worker commits is made for
      positions that stand for a time close to now, and that the pickups a world tick reaches come
      early in the tick.  A leeway of one tick asks nothing (`FullLeeway`). */
  ghost predicate Within(d: Distance, dt: real, w: Leeway, f: Fleet, e: Event) {
    match e
    case Dispatch(_, _, plan) => plan.Some? ==> f.q <= f.now + w.wait
    case WorldTick => AllPrompt(d, w, f, f.q + dt)
    case _ => true
  }

  /** The store once a worker has committed a plan: a vehicle that is given work stops repositioning. */
  function Booked(s: StoreState, node: Node, plan: Plan): StoreState {
    var t := Committed(s, plan.vehicleId, plan.expectedVersion, plan.newRoute, node);
    if CommitAnswer(s, plan.vehicleId, plan.expectedVersion, node).ok then
      var v := t.vehicles[plan.vehicleId].(repositionTarget := None);
      t.(vehicles := t.vehicles[plan.vehicleId := v])
    else t
  }

  /** `t` is the store `s` after a worker has committed its plan, if it has one. */
  predicate BookedTo(s: StoreState, node: Node, plan: Option<Plan>, t: StoreState) {
    match t
    case StoreState(vehicles, replica, order, conflicts, notOwner) =>
      StoreState(vehicles, replica, order, conflicts, notOwner) ==
      if plan.None? then s else Booked(s, node, plan.value)
  }

  /** `_try_dispatch` once the engine has chosen a plan. */
  function Confirm(f: Fleet, id: int, node: Node, plan: Plan): Fleet
    requires id in f.requests
  {
    if CommitAnswer(f.store, plan.vehicleId, plan.expectedVersion, node).ok then
      f.(store := Booked(f.store, node, plan),
         requests := f.requests[id := Assignment(f.requests[id], plan.vehicleId, f.now)])
    else f.(store := Booked(f.store, node, plan))
  }

  function Assignment(r: RequestState, vid: int, now: real): RequestState {
    r.(status := Assigned, assignedVehicle := Some(vid), assignedAt := Some(now))
  }

  function SegOf(segs: map<int, Segment>, id: int): Option<Segment> {
    if id in segs then Some(segs[id]) else None
  }

  function WithSeg(segs: map<int, Segment>, id: int, seg: Option<Segment>): map<int, Segment> {
    if seg.Some? then segs[id := seg.value] else segs - {id}
  }

  /** Vehicle `id` as the world is about to move it. */
  function TickOf(f: Fleet, id: int): Tick
    requires id in f.store.vehicles
  {
    Tick(f.store.vehicles[id], SegOf(f.segs, id), f.requests)
  }

  function WithTick(f: Fleet, id: int, t: Tick): Fleet {
    f.(store := f.store.(vehicles := f.store.vehicles[id := t.v]), segs := WithSeg(f.segs, id, t.seg),
       requests := t.requests)
  }

  /** The fleet after the first `k` listed vehicles have been moved by one tick. */
  function Moved(roads: Roads, dt: real, f: Fleet, k: nat): (g: Fleet)
    requires k <= |f.store.order|
  {
    if k == 0 then f
    else
      var g := Moved(roads, dt, f, k - 1);
      var id := f.store.order[k - 1];
      if id in g.store.vehicles then WithTick(g, id, Advance(roads, TickOf(g, id), dt, f.now)) else g
  }

  ghost function After(roads: Roads, dt: real, f: Fleet, e: Event): Fleet
    requires Enabled(roads, f, e)
  {
    match e
    case Wait(until) => f.(now := until)
    case Emit(request) => f.(requests := f.requests[request.id := request])
    case Dispatch(id, node, plan) =>
      if plan.None? then f.(requests := f.requests[id := f.requests[id].(status := Rejected)])
      else Confirm(f, id, node, plan.value)
    case Reassign(vid, owner) => f.(store := Reassigned(f.store, vid, owner))
    case Reposition(vid, target) =>
      var v := f.store.vehicles[vid].(repositionTarget := Some(target));
      f.(store := f.store.(vehicles := f.store.vehicles[vid := v]))
    case WorldTick => Moved(roads, dt, f, |f.store.order|).(q := f.q + dt)
  }

  // ---------------------------------------------------------------- the invariant

  /** Vehicle `id` keeps its promises, its position standing for time `q`. */
  ghost predicate RideOk(roads: Roads, w: Leeway, f: Fleet, id: int, q: real) {
    match f
    case Fleet(_, _, store, segs, requests) =>
      id in store.vehicles && VehicleInv(roads, w, store.vehicles[id], SegOf(segs, id), requests, q)
  }

  /** The store is in order, and every assigned request has its vehicle. */
  ghost predicate Books(f: Fleet) {
    match f
    case Fleet(_, _, store, _, requests) =>
      && Keyed(store) && ReplicaAgrees(store)
      && (forall id :: id in store.order <==> id in store.vehicles)
      && (forall i, j :: 0 <= i < j < |store.order| ==> store.order[i] != store.order[j])
      && (forall id :: id in requests && requests[id].assignedVehicle.Some? ==>
            requests[id].assignedVehicle.value in store.vehicles)
  }

  ghost predicate ServedSoFar(roads: Roads, w: Leeway, f: Fleet) {
    match f
    case Fleet(now, _, _, _, requests) => AllServed(roads.d, w, now, requests)
  }

  /** The world ticks at least every `dt` seconds. */
  predicate OnBeat(dt: real, f: Fleet) {
    f.now <= f.q <= f.now + dt
  }

  ghost predicate AllRide(roads: Roads, w: Leeway, f: Fleet) {
    forall id :: id in f.store.vehicles ==> RideOk(roads, w, f, id, f.q)
  }

  ghost predicate Inv(roads: Roads, dt: real, w: Leeway, f: Fleet) {
    Books(f) && ServedSoFar(roads, w, f) && OnBeat(dt, f) && AllRide(roads, w, f)
  }

  // ---------------------------------------------------------------- what one vehicle does not see

  /** The riders of vehicle `vid` are the same. */
  ghost predicate SameRiders(vid: int, a: map<int, RequestState>, b: map<int, RequestState>) {
    forall id :: (id in a && a[id].assignedVehicle == Some(vid)) || (id in b && b[id].assignedVehicle == Some(vid)) ==>
      id in a && id in b && a[id] == b[id]
  }

  lemma SoundForSameRiders(d: Distance, v: VehicleState, a: map<int, RequestState>, b: map<int, RequestState>)
    requires Sound(d, v, a) && SameRiders(v.id, a, b)
    ensures Sound(d, v, b)
  {
    forall k | 0 <= k < |v.route| ensures LinkedStop(d, v.id, v.route[k], b) {
      assert LinkedStop(d, v.id, v.route[k], a);
    }
  }

  lemma RideUntouched(roads: Roads, w: Leeway, f: Fleet, g: Fleet, id: int, q: real)
    requires RideOk(roads, w, f, id, q) && f.store.vehicles[id].id == id
    requires id in g.store.vehicles && g.store.vehicles[id] == f.store.vehicles[id]
    requires SegOf(g.segs, id) == SegOf(f.segs, id) && SameRiders(id, f.requests, g.requests)
    ensures RideOk(roads, w, g, id, q)
  {
    SoundForSameRiders(roads.d, f.store.vehicles[id], f.requests, g.requests);
  }

  lemma TouchedElsewhere(vid: int, other: int, a: map<int, RequestState>, b: map<int, RequestState>)
    requires Touched(vid, a, b) && other != vid
    ensures SameRiders(other, a, b)
  {
  }

  // ---------------------------------------------------------------- the world tick

  /** Part of the way through a tick: the first `k` vehicles stand for `next`, the others for now. */
  ghost predicate MidTick(roads: Roads, w: Leeway, f: Fleet, k: nat, next: real) {
    match f
    case Fleet(now, _, store, _, _) =>
      && Books(f) && ServedSoFar(roads, w, f) && k <= |store.order|
      && (forall j :: 0 <= j < |store.order| ==> RideOk(roads, w, f, store.order[j], if j < k then next else now))
      && (forall j :: k <= j < |store.order| ==> StartsPrompt(roads.d, w, f, store.order[j], next))
  }

  lemma BooksAfterTick(f: Fleet, id: int, t: Tick)
    requires Books(f) && id in f.store.vehicles && TickFrame(TickOf(f, id), t)
    ensures Books(WithTick(f, id, t))
  {
    MoveAgrees(f.store.vehicles[id], t.v, f.store.replica[id]);
  }

  lemma RideAfterTick(roads: Roads, w: Leeway, f: Fleet, id: int, t: Tick, next: real)
    requires id in f.store.vehicles && TickInv(roads, w, t, next, f.now)
    ensures RideOk(roads, w, WithTick(f, id, t), id, next) && ServedSoFar(roads, w, WithTick(f, id, t))
  {
    assert SegOf(WithTick(f, id, t).segs, id) == t.seg;
  }

  lemma OthersAfterTick(roads: Roads, w: Leeway, f: Fleet, id: int, t: Tick, other: int, q: real)
    requires Books(f) && id in f.store.vehicles && TickFrame(TickOf(f, id), t) && other != id
    requires RideOk(roads, w, f, other, q)
    ensures RideOk(roads, w, WithTick(f, id, t), other, q)
  {
    TouchedElsewhere(id, other, f.requests, t.requests);
    RideUntouched(roads, w, f, WithTick(f, id, t), other, q);
  }

  lemma OneTick(roads: Roads, dt: real, w: Leeway, f: Fleet, id: int, next: real) returns (t: Tick)
    requires Homing(roads) && 0.0 < dt && RideOk(roads, w, f, id, f.now) && ServedSoFar(roads, w, f)
    requires next == f.now + dt && StartsPrompt(roads.d, w, f, id, next)
    ensures t == Advance(roads, TickOf(f, id), dt, f.now)
    ensures TickInv(roads, w, t, next, f.now) && TickFrame(TickOf(f, id), t)
  {
    t := AdvanceKeeps(roads, w, TickOf(f, id), f.now, next, dt, f.now);
  }

  lemma StillPrompt(d: Distance, w: Leeway, f: Fleet, g: Fleet, id: int, next: real)
    requires StartsPrompt(d, w, f, id, next) && g.now == f.now
    requires id in g.store.vehicles && g.store.vehicles[id] == f.store.vehicles[id]
    ensures StartsPrompt(d, w, g, id, next)
  {
  }

  lemma MidTickStep(roads: Roads, dt: real, w: Leeway, f: Fleet, k: nat, n: nat, next: real)
    requires Homing(roads) && 0.0 < dt && k < n == k + 1 <= |f.store.order| && MidTick(roads, w, f, k, next)
    requires next == f.now + dt
    ensures var id := f.store.order[k];
            && id in f.store.vehicles
            && MidTick(roads, w, WithTick(f, id, Advance(roads, TickOf(f, id), dt, f.now)), n, next)
  {
    assert RideOk(roads, w, f, f.store.order[k], f.now) && StartsPrompt(roads.d, w, f, f.store.order[k], next);
    var t := OneTick(roads, dt, w, f, f.store.order[k], next);
    MidTickAfter(roads, w, f, k, n, f.store.order[k], t, next);
  }

  /** Once vehicle number `k` has moved, the first `n` stand for `next`. */
  lemma MidTickAfter(roads: Roads, w: Leeway, f: Fleet, k: nat, n: nat, id: int, t: Tick, next: real)
    requires k < n == k + 1 <= |f.store.order| && id == f.store.order[k] && MidTick(roads, w, f, k, next)
    requires id in f.store.vehicles && TickInv(roads, w, t, next, f.now) && TickFrame(TickOf(f, id), t)
    ensures MidTick(roads, w, WithTick(f, id, t), n, next)
  {
    BooksAfterTick(f, id, t);
    RideAfterTick(roads, w, f, id, t, next);
    forall j | 0 <= j < |f.store.order| && j != k
      ensures RideOk(roads, w, WithTick(f, id, t), f.store.order[j], if j < k then next else f.now)
    {
      OthersAfterTick(roads, w, f, id, t, f.store.order[j], if j < k then next else f.now);
    }
    forall j | k < j < |f.store.order| ensures StartsPrompt(roads.d, w, WithTick(f, id, t), f.store.order[j], next) {
      StillPrompt(roads.d, w, f, WithTick(f, id, t), f.store.order[j], next);
    }
  }

  lemma MovedOneMore(roads: Roads, dt: real, f: Fleet, k: nat, n: nat, g: Fleet)
    requires k < n == k + 1 <= |f.store.order| && g == Moved(roads, dt, f, k) && f.store.order[k] in g.store.vehicles
    ensures Moved(roads, dt, f, n) ==
            WithTick(g, f.store.order[k], Advance(roads, TickOf(g, f.store.order[k]), dt, f.now))
  {
  }

  /** Vehicle after vehicle: from each of the fleets to the next. */
  ghost predicate OneByOne(roads: Roads, dt: real, f: Fleet, gs: seq<Fleet>) {
    && |gs| == |f.store.order| + 1 && gs[0] == f
    && forall k, n :: 0 <= k < n == k + 1 < |gs| && f.store.order[k] in gs[k].store.vehicles ==>
         gs[n] == WithTick(gs[k], f.store.order[k], Advance(roads, TickOf(gs[k], f.store.order[k]), dt, f.now))
  }

  lemma MovedOneByOne(roads: Roads, dt: real, f: Fleet) returns (gs: seq<Fleet>)
    ensures OneByOne(roads, dt, f, gs) && gs[|f.store.order|] == Moved(roads, dt, f, |f.store.order|)
  {
    gs := seq(|f.store.order| + 1, k requires 0 <= k <= |f.store.order| => Moved(roads, dt, f, k));
    forall k, n | 0 <= k < n == k + 1 < |gs| && f.store.order[k] in gs[k].store.vehicles
      ensures gs[n] == WithTick(gs[k], f.store.order[k], Advance(roads, TickOf(gs[k], f.store.order[k]), dt, f.now))
    {
      MovedOneMore(roads, dt, f, k, n, gs[k]);
    }
  }

  lemma {:induction false} MidTickKeeps(roads: Roads, dt: real, w: Leeway, f: Fleet, gs: seq<Fleet>, k: nat, next: real)
    requires Homing(roads) && 0.0 < dt && OneByOne(roads, dt, f, gs) && k < |gs| && MidTick(roads, w, f, 0, next)
    requires next == f.now + dt
    ensures MidTick(roads, w, gs[k], k, next) && gs[k].now == f.now && gs[k].store.order == f.store.order
  {
    if k > 0 {
      MidTickKeeps(roads, dt, w, f, gs, k - 1, next);
      MidTickStep(roads, dt, w, gs[k - 1], k - 1, k, next);
    }
  }

  /** Once the last vehicle has been moved, the whole fleet stands for `next`. */
  lemma TickEnds(roads: Roads, dt: real, w: Leeway, f: Fleet, next: real)
    requires MidTick(roads, w, f, |f.store.order|, next) && next == f.now + dt && 0.0 < dt
    ensures Inv(roads, dt, w, f.(q := next))
  {
    var g := f.(q := next);
    forall id | id in g.store.vehicles ensures RideOk(roads, w, g, id, next) {
      var j :| 0 <= j < |f.store.order| && f.store.order[j] == id;
      assert RideOk(roads, w, f, f.store.order[j], next);
    }
  }

  lemma TickBegins(roads: Roads, dt: real, w: Leeway, f: Fleet, next: real)
    requires Inv(roads, dt, w, f) && f.now == f.q && AllPrompt(roads.d, w, f, next)
    ensures MidTick(roads, w, f, 0, next)
  {
    forall j | 0 <= j < |f.store.order|
      ensures RideOk(roads, w, f, f.store.order[j], f.now) && StartsPrompt(roads.d, w, f, f.store.order[j], next)
    {
      assert f.store.order[j] in f.store.order;
    }
  }

  /** The whole fleet moved, one vehicle after another. */
  lemma WholeTick(roads: Roads, dt: real, w: Leeway, f: Fleet, next: real) returns (g: Fleet)
    requires Homing(roads) && 0.0 < dt && MidTick(roads, w, f, 0, next) && next == f.now + dt
    ensures g == Moved(roads, dt, f, |f.store.order|)
    ensures Inv(roads, dt, w, g.(q := next))
  {
    var gs := MovedOneByOne(roads, dt, f);
    MidTickKeeps(roads, dt, w, f, gs, |f.store.order|, next);
    g := gs[|f.store.order|];
    TickEnds(roads, dt, w, g, next);
  }

  lemma WorldTickIs(roads: Roads, dt: real, f: Fleet, g: Fleet)
    requires Enabled(roads, f, WorldTick) && g == Moved(roads, dt, f, |f.store.order|)
    ensures After(roads, dt, f, WorldTick) == g.(q := f.q + dt)
  {
  }

  lemma WithinTick(d: Distance, dt: real, w: Leeway, f: Fleet) returns (next: real)
    requires Within(d, dt, w, f, WorldTick)
    ensures next == f.q + dt && AllPrompt(d, w, f, next)
  {
    next := f.q + dt;
  }

  lemma WorldTickKeeps(roads: Roads, dt: real, w: Leeway, f: Fleet)
    requires Homing(roads) && 0.0 < dt && Inv(roads, dt, w, f)
    requires Enabled(roads, f, WorldTick) && Within(roads.d, dt, w, f, WorldTick)
    ensures Inv(roads, dt, w, After(roads, dt, f, WorldTick))
  {
    var next := WithinTick(roads.d, dt, w, f);
    TickBegins(roads, dt, w, f, next);
    var g := WholeTick(roads, dt, w, f, next);
    WorldTickIs(roads, dt, f, g);
  }

  // ---------------------------------------------------------------- dispatch

  lemma CandidateIsOwned(s: StoreState, node: Node, i: nat)
    requires Keyed(s) && i < |Candidates(s, node)|
    ensures var v := Candidates(s, node)[i];
            v.id in s.vehicles && s.vehicles[v.id] == v && v.ownerNode == Some(node)
  {
    var id := OwnedIds(s, s.order, node)[i];
    assert Candidates(s, node)[i] == s.vehicles[id];
  }

  lemma WinningPlan(d: Distance, r: RequestState, vs: seq<VehicleState>, now: real, plan: Plan)
    returns (i: nat, pi: nat, di: nat)
    requires Winner(d, r, vs, now, Some(plan))
    ensures i < |vs| && Fits(d, vs[i], r, now, pi, di)
    ensures plan.newRoute == Candidate(d, vs[i], r, pi, di)
    ensures plan.vehicleId == vs[i].id && plan.expectedVersion == vs[i].version
  {
    i :| WinnerAt(d, r, vs, now, plan, i);
    pi, di := plan.pickupIndex, plan.dropoffIndex - 1;
  }

  /** Since reading, planning and committing are one step, no commit is ever refused. */
  lemma CommitNeverRefused(d: Distance, r: RequestState, s: StoreState, node: Node, now: real, plan: Plan)
    requires Keyed(s) && Winner(d, r, Candidates(s, node), now, Some(plan))
    ensures CommitAnswer(s, plan.vehicleId, plan.expectedVersion, node).ok
  {
    var i, pi, di := WinningPlan(d, r, Candidates(s, node), now, plan);
    CandidateIsOwned(s, node, i);
  }

  /** The plan a worker commits is for one of its vehicles as the store has it. */
  lemma PlanIsCurrent(roads: Roads, f: Fleet, id: int, node: Node, plan: Plan) returns (pi: nat, di: nat)
    requires Books(f) && Enabled(roads, f, Dispatch(id, node, Some(plan)))
    ensures plan.vehicleId in f.store.vehicles
    ensures var v := f.store.vehicles[plan.vehicleId];
            && v.ownerNode == Some(node) && plan.expectedVersion == v.version
            && Fits(roads.d, v, f.requests[id], f.now, pi, di)
            && plan.newRoute == Candidate(roads.d, v, f.requests[id], pi, di)
  {
    var i;
    i, pi, di := WinningPlan(roads.d, f.requests[id], Candidates(f.store, node), f.now, plan);
    CandidateIsOwned(f.store, node, i);
  }

  /** The vehicle once the plan is committed. */
  function Taken(d: Distance, v: VehicleState, r: RequestState, pi: nat, di: nat): VehicleState
    requires pi <= di <= |v.route|
  {
    v.(route := Candidate(d, v, r, pi, di), version := v.version + 1, repositionTarget := None)
  }

  lemma UnassignedIsFresh(d: Distance, v: VehicleState, r: RequestState, requests: map<int, RequestState>)
    requires Linked(d, v.id, v.route, requests) && r.id in requests && requests[r.id].assignedVehicle.None?
    ensures Fresh(v.route, r.id)
  {
    forall k | 0 <= k < |v.route| ensures v.route[k].requestId != r.id {
      assert LinkedStop(d, v.id, v.route[k], requests);
    }
  }

  lemma NewStopsLinked(d: Distance, vid: int, r: RequestState, now: real, requests: map<int, RequestState>)
    requires r.id in requests && requests[r.id] == Assignment(r, vid, now) && r.pickupTime.None? && r.dropoffTime.None?
    ensures LinkedStop(d, vid, r.StopFor(d, Pickup), requests) && LinkedStop(d, vid, r.StopFor(d, Dropoff), requests)
  {
    assert requests[r.id].StopFor(d, Pickup) == r.StopFor(d, Pickup);
    assert requests[r.id].StopFor(d, Dropoff) == r.StopFor(d, Dropoff);
  }

  lemma TakenLinked(d: Distance, v: VehicleState, r: RequestState, now: real, pi: nat, di: nat,
                    a: map<int, RequestState>, b: map<int, RequestState>)
    requires pi <= di <= |v.route| && Linked(d, v.id, v.route, a) && Fresh(v.route, r.id)
    requires b == a[r.id := Assignment(r, v.id, now)] && r.pickupTime.None? && r.dropoffTime.None?
    ensures Linked(d, v.id, Candidate(d, v, r, pi, di), b)
  {
    var c := Candidate(d, v, r, pi, di);
    NewStopsLinked(d, v.id, r, now, b);
    forall k | 0 <= k < |c| ensures LinkedStop(d, v.id, c[k], b) {
      PlacedAt(v.route, r.StopFor(d, Pickup), r.StopFor(d, Dropoff), pi, di, k);
      if k != pi && k != di + 1 {
        assert LinkedStop(d, v.id, v.route[Old(pi, di, k)], a);
      }
    }
  }

  lemma HasPlaced(route: seq<Stop>, p: Stop, q: Stop, pi: nat, di: nat, id: int, stopType: StopType)
    requires pi <= di <= |route|
    requires Has(route, id, stopType) || (p.requestId == id && p.stopType == stopType)
          || (q.requestId == id && q.stopType == stopType)
    ensures Has(Placed(route, p, q, pi, di), id, stopType)
  {
    var c := Placed(route, p, q, pi, di);
    if Has(route, id, stopType) {
      var k: nat :| k < |route| && route[k].requestId == id && route[k].stopType == stopType;
      PlacedNew(route, p, q, pi, di, k);
      assert c[New(pi, di, k)] == route[k];
    } else {
      PlacedAt(route, p, q, pi, di, pi);
      PlacedAt(route, p, q, pi, di, di + 1);
      assert c[pi] == p && c[di + 1] == q;
    }
  }

  lemma TakenCarried(d: Distance, v: VehicleState, r: RequestState, now: real, pi: nat, di: nat,
                     a: map<int, RequestState>, b: map<int, RequestState>)
    requires pi <= di <= |v.route| && Carried(v.id, v.route, a)
    requires b == a[r.id := Assignment(r, v.id, now)]
    ensures Carried(v.id, Candidate(d, v, r, pi, di), b)
  {
    var p, q := r.StopFor(d, Pickup), r.StopFor(d, Dropoff);
    forall id | id in b && b[id].assignedVehicle == Some(v.id)
      ensures b[id].pickupTime.None? ==> Has(Candidate(d, v, r, pi, di), id, Pickup)
      ensures b[id].dropoffTime.None? ==> Has(Candidate(d, v, r, pi, di), id, Dropoff)
    {
      if b[id].pickupTime.None? {
        HasPlaced(v.route, p, q, pi, di, id, Pickup);
      }
      if b[id].dropoffTime.None? {
        HasPlaced(v.route, p, q, pi, di, id, Dropoff);
      }
    }
  }

  lemma TakenSeats(d: Distance, v: VehicleState, r: RequestState, now: real, pi: nat, di: nat)
    requires Fits(d, v, r, now, pi, di) && WithinCapacity(v.onboard, v.capacity, v.route)
    ensures WithinCapacity(v.onboard, v.capacity, Candidate(d, v, r, pi, di))
  {
    var c := Candidate(d, v, r, pi, di);
    assert Load(v.onboard, v.route, 0) <= v.capacity;
    forall k | 0 <= k <= |c| ensures Load(v.onboard, c, k) <= v.capacity {
      FeasibleLoad(v.onboard, v.capacity, c, k);
    }
  }

  /** Taking on a pending request keeps every promise of the vehicle. */
  lemma TakenKeeps(roads: Roads, w: Leeway, v: VehicleState, seg: Option<Segment>, r: RequestState, now: real, q: real,
                   pi: nat, di: nat, a: map<int, RequestState>, b: map<int, RequestState>)
    requires VehicleInv(roads, w, v, seg, a, q) && now <= q <= now + w.wait && w.Ok()
    requires Fits(roads.d, v, r, now, pi, di)
    requires r.id in a && a[r.id] == r && r.assignedVehicle.None? && r.pickupTime.None? && r.dropoffTime.None?
    requires b == a[r.id := Assignment(r, v.id, now)]
    ensures VehicleInv(roads, w, Taken(roads.d, v, r, pi, di), seg, b, q)
  {
    var d := roads.d;
    UnassignedIsFresh(d, v, r, a);
    PlacedPaired(v.route, r.StopFor(d, Pickup), r.StopFor(d, Dropoff), pi, di);
    TakenLinked(d, v, r, now, pi, di, a, b);
    TakenCarried(d, v, r, now, pi, di, a, b);
    NetOutPlaced(v.route, r.StopFor(d, Pickup), r.StopFor(d, Dropoff), pi, di);
    TakenSeats(d, v, r, now, pi, di);
    FeasibleKept(d, v.location, v.onboard, v.capacity, now, q, Candidate(d, v, r, pi, di), w);
  }

  /** The fleet after a plan has been committed, when the plan is current. */
  lemma ConfirmIs(roads: Roads, f: Fleet, id: int, node: Node, plan: Plan, g: Fleet) returns (pi: nat, di: nat)
    requires Books(f) && Enabled(roads, f, Dispatch(id, node, Some(plan))) && g == Confirm(f, id, node, plan)
    ensures plan.vehicleId in f.store.vehicles
    ensures var v := f.store.vehicles[plan.vehicleId];
            && Fits(roads.d, v, f.requests[id], f.now, pi, di)
            && g.store.vehicles == f.store.vehicles[plan.vehicleId := Taken(roads.d, v, f.requests[id], pi, di)]
            && g.store.order == f.store.order && g.segs == f.segs && g.now == f.now && g.q == f.q
            && g.requests == f.requests[id := Assignment(f.requests[id], plan.vehicleId, f.now)]
            && plan.vehicleId in g.store.replica
            && Agrees(g.store.vehicles[plan.vehicleId], g.store.replica[plan.vehicleId])
            && g.store.replica == f.store.replica[plan.vehicleId := g.store.replica[plan.vehicleId]]
  {
    pi, di := PlanIsCurrent(roads, f, id, node, plan);
    var v := f.store.vehicles[plan.vehicleId];
    var t := Taken(roads.d, v, f.requests[id], pi, di);
    assert g.store.vehicles[plan.vehicleId] == t;
    assert g.store.vehicles == f.store.vehicles[plan.vehicleId := t];
  }

  /** A pending request has not been promised anything, whatever becomes of it. */
  lemma AssignedServed(d: Distance, w: Leeway, now: real, requests: map<int, RequestState>, id: int, vid: int)
    requires AllServed(d, w, now, requests) && id in requests && requests[id].status.Pending?
    ensures RiderServed(d, w, now, Assignment(requests[id], vid, now)) && requests[id].id == id
  {
  }

  lemma PendingRejected(d: Distance, w: Leeway, now: real, requests: map<int, RequestState>, id: int)
    returns (r: RequestState)
    requires AllServed(d, w, now, requests) && id in requests && requests[id].status.Pending?
    ensures r == requests[id].(status := Rejected) && r.id == id
    ensures RiderServed(d, w, now, r) && r.assignedVehicle.None? && requests[id].assignedVehicle.None?
  {
    r := requests[id].(status := Rejected);
  }

  lemma ConfirmServed(roads: Roads, w: Leeway, f: Fleet, id: int, node: Node, plan: Plan, g: Fleet)
    requires ServedSoFar(roads, w, f) && id in f.requests && f.requests[id].status.Pending?
    requires g.now == f.now && g.requests == f.requests[id := Assignment(f.requests[id], plan.vehicleId, f.now)]
    ensures ServedSoFar(roads, w, g)
  {
    AssignedServed(roads.d, w, f.now, f.requests, id, plan.vehicleId);
    UpdateServed(roads.d, w, f.now, f.requests, id, Assignment(f.requests[id], plan.vehicleId, f.now));
  }

  lemma ConfirmBooks(roads: Roads, f: Fleet, id: int, node: Node, plan: Plan, g: Fleet)
    requires Books(f) && Enabled(roads, f, Dispatch(id, node, Some(plan))) && g == Confirm(f, id, node, plan)
    ensures Books(g)
  {
    var pi, di := ConfirmIs(roads, f, id, node, plan, g);
  }

  lemma ConfirmKeeps(roads: Roads, dt: real, w: Leeway, f: Fleet, id: int, node: Node, plan: Plan)
    requires Inv(roads, dt, w, f) && Enabled(roads, f, Dispatch(id, node, Some(plan))) && w.Ok()
    requires f.q <= f.now + w.wait
    ensures Inv(roads, dt, w, Confirm(f, id, node, plan))
  {
    var g := Confirm(f, id, node, plan);
    var pi, di := ConfirmIs(roads, f, id, node, plan, g);
    ConfirmBooks(roads, f, id, node, plan, g);
    ConfirmServed(roads, w, f, id, node, plan, g);
    forall vid | vid in g.store.vehicles ensures RideOk(roads, w, g, vid, g.q) {
      assert RideOk(roads, w, f, vid, f.q);
      if vid == plan.vehicleId {
        TakenKeeps(roads, w, f.store.vehicles[vid], SegOf(f.segs, vid), f.requests[id], f.now, f.q, pi, di,
                   f.requests, g.requests);
      } else {
        RideUntouched(roads, w, f, g, vid, f.q);
      }
    }
  }

  // ---------------------------------------------------------------- the other events

  /** Events that touch neither routes nor riders. */
  lemma QuietKeeps(roads: Roads, dt: real, w: Leeway, f: Fleet, g: Fleet)
    requires Inv(roads, dt, w, f) && Books(g) && ServedSoFar(roads, w, g) && OnBeat(dt, g) && g.q == f.q
    requires g.store.vehicles.Keys == f.store.vehicles.Keys && g.segs == f.segs
    requires forall vid :: vid in f.store.vehicles ==>
               SameRiders(vid, f.requests, g.requests) && g.store.vehicles[vid] == f.store.vehicles[vid]
    ensures Inv(roads, dt, w, g)
  {
    forall vid | vid in g.store.vehicles ensures RideOk(roads, w, g, vid, g.q) {
      RideUntouched(roads, w, f, g, vid, f.q);
    }
  }

  /** Changing a vehicle in ways its riders do not notice. */
  lemma VehicleEdited(roads: Roads, dt: real, w: Leeway, f: Fleet, g: Fleet, vid: int)
    requires Inv(roads, dt, w, f) && Books(g) && vid in f.store.vehicles && vid in g.store.vehicles
    requires var v := g.store.vehicles[vid];
             f.store.vehicles[vid] == v.(ownerNode := f.store.vehicles[vid].ownerNode,
                                         version := f.store.vehicles[vid].version,
                                         repositionTarget := f.store.vehicles[vid].repositionTarget)
    requires g.store.vehicles == f.store.vehicles[vid := g.store.vehicles[vid]]
    requires g.now == f.now && g.q == f.q && g.segs == f.segs && g.requests == f.requests
    ensures Inv(roads, dt, w, g)
  {
    forall other | other in g.store.vehicles ensures RideOk(roads, w, g, other, g.q) {
      assert RideOk(roads, w, f, other, f.q);
      if other != vid {
        RideUntouched(roads, w, f, g, other, f.q);
      }
    }
  }

  lemma AllServedLater(d: Distance, w: Leeway, now: real, later: real, requests: map<int, RequestState>)
    requires AllServed(d, w, now, requests) && now <= later
    ensures AllServed(d, w, later, requests)
  {
  }

  lemma RequestChanged(roads: Roads, w: Leeway, f: Fleet, r: RequestState) returns (g: Fleet)
    requires Books(f) && ServedSoFar(roads, w, f) && RiderServed(roads.d, w, f.now, r)
    requires r.assignedVehicle.Some? ==> r.assignedVehicle.value in f.store.vehicles
    ensures g == f.(requests := f.requests[r.id := r])
    ensures Books(g) && ServedSoFar(roads, w, g)
  {
    g := f.(requests := f.requests[r.id := r]);
    UpdateServed(roads.d, w, f.now, f.requests, r.id, r);
  }

  lemma WaitKeeps(roads: Roads, dt: real, w: Leeway, f: Fleet, until: real)
    requires Inv(roads, dt, w, f) && Enabled(roads, f, Wait(until))
    ensures Inv(roads, dt, w, After(roads, dt, f, Wait(until)))
  {
    AllServedLater(roads.d, w, f.now, until, f.requests);
    QuietKeeps(roads, dt, w, f, f.(now := until));
  }

  /** A request nobody is to pick up appears, or is turned down: no vehicle notices. */
  lemma UnassignedChanged(roads: Roads, dt: real, w: Leeway, f: Fleet, r: RequestState) returns (g: Fleet)
    requires Inv(roads, dt, w, f) && RiderServed(roads.d, w, f.now, r) && r.assignedVehicle.None?
    requires r.id in f.requests ==> f.requests[r.id].assignedVehicle.None?
    ensures g == f.(requests := f.requests[r.id := r]) && Inv(roads, dt, w, g)
  {
    g := RequestChanged(roads, w, f, r);
    QuietKeeps(roads, dt, w, f, g);
  }

  lemma EmitKeeps(roads: Roads, dt: real, w: Leeway, f: Fleet, r: RequestState)
    requires Inv(roads, dt, w, f) && Enabled(roads, f, Emit(r))
    ensures Inv(roads, dt, w, After(roads, dt, f, Emit(r)))
  {
    var g := UnassignedChanged(roads, dt, w, f, r);
  }

  lemma RejectKeeps(roads: Roads, dt: real, w: Leeway, f: Fleet, id: int, node: Node)
    requires Inv(roads, dt, w, f) && Enabled(roads, f, Dispatch(id, node, None))
    ensures Inv(roads, dt, w, After(roads, dt, f, Dispatch(id, node, None)))
  {
    var r := PendingRejected(roads.d, w, f.now, f.requests, id);
    var g := UnassignedChanged(roads, dt, w, f, r);
  }

  lemma ReassignKeeps(roads: Roads, dt: real, w: Leeway, f: Fleet, vid: int, owner: Node)
    requires Inv(roads, dt, w, f)
    ensures Inv(roads, dt, w, After(roads, dt, f, Event.Reassign(vid, owner)))
  {
    var g := f.(store := Reassigned(f.store, vid, owner));
    if vid in f.store.vehicles {
      VehicleEdited(roads, dt, w, f, g, vid);
    }
  }

  lemma RepositionKeeps(roads: Roads, dt: real, w: Leeway, f: Fleet, vid: int, target: Point)
    requires Inv(roads, dt, w, f) && Enabled(roads, f, Reposition(vid, target))
    ensures Inv(roads, dt, w, After(roads, dt, f, Reposition(vid, target)))
  {
    VehicleEdited(roads, dt, w, f, After(roads, dt, f, Reposition(vid, target)), vid);
  }

  /** Every event within the leeway keeps the invariant. */
  lemma StepKeeps(roads: Roads, dt: real, w: Leeway, f: Fleet, e: Event)
    requires Homing(roads) && 0.0 < dt && w.Ok() && Inv(roads, dt, w, f)
    requires Enabled(roads, f, e) && Within(roads.d, dt, w, f, e)
    ensures Inv(roads, dt, w, After(roads, dt, f, e))
  {
    match e
    case Wait(until) => WaitKeeps(roads, dt, w, f, until);
    case Emit(request) => EmitKeeps(roads, dt, w, f, request);
    case Dispatch(id, node, plan) =>
      if plan.None? {
        RejectKeeps(roads, dt, w, f, id, node);
      } else {
        ConfirmKeeps(roads, dt, w, f, id, node, plan.value);
      }
    case Reassign(vid, owner) => ReassignKeeps(roads, dt, w, f, vid, owner);
    case Reposition(vid, target) => RepositionKeeps(roads, dt, w, f, vid, target);
    case WorldTick => WorldTickKeeps(roads, dt, w, f);
  }

  // ---------------------------------------------------------------- runs

  /** Empty vehicles, registered once each, and no requests. */
  ghost predicate Initial(f: Fleet) {
    && f.now == f.q && f.segs == map[] && f.requests == map[]
    && Keyed(f.store) && f.store.replica == f.store.vehicles
    && (forall id :: id in f.store.order <==> id in f.store.vehicles)
    && (forall i, j :: 0 <= i < j < |f.store.order| ==> f.store.order[i] != f.store.order[j])
    && (forall id :: id in f.store.vehicles ==> f.store.vehicles[id].route == [] && f.store.vehicles[id].onboard == 0)
  }

  ghost predicate Run(roads: Roads, dt: real, run: seq<Fleet>, events: seq<Event>) {
    && |run| == |events| + 1 && Initial(run[0])
    && (forall i :: 0 <= i < |events| ==>
          Enabled(roads, run[i], events[i]) && run[i + 1] == After(roads, dt, run[i], events[i]))
  }

  lemma InitialHolds(roads: Roads, dt: real, w: Leeway, f: Fleet)
    requires 0.0 < dt && Initial(f)
    ensures Inv(roads, dt, w, f)
  {
    forall id | id in f.store.vehicles ensures RideOk(roads, w, f, id, f.q) {
    }
  }

  /** The first `n` events of a run are within the leeway. */
  ghost predicate Careful(d: Distance, dt: real, w: Leeway, run: seq<Fleet>, events: seq<Event>, n: nat)
    requires n <= |events| <= |run|
  {
    forall i :: 0 <= i < n ==> Within(d, dt, w, run[i], events[i])
  }

  /** The invariant holds in every state of a run within the leeway, on roads that lead straight to
      their target. */
  lemma {:induction false} AlwaysInvWithin(roads: Roads, dt: real, w: Leeway, run: seq<Fleet>, events: seq<Event>, i: nat)
    requires Homing(roads) && 0.0 < dt && w.Ok() && Run(roads, dt, run, events) && i < |run|
    requires Careful(roads.d, dt, w, run, events, i)
    ensures Inv(roads, dt, w, run[i])
  {
    if i == 0 {
      InitialHolds(roads, dt, w, run[0]);
    } else {
      AlwaysInvWithin(roads, dt, w, run, events, i - 1);
      StepKeeps(roads, dt, w, run[i - 1], events[i - 1]);
    }
  }

  /** Events are always within a leeway of one tick. */
  lemma FullLeeway(d: Distance, dt: real, f: Fleet, e: Event)
    requires OnBeat(dt, f) && (e.WorldTick? ==> f.now == f.q)
    ensures Within(d, dt, Leeway(dt, dt), f, e)
  {
  }

  lemma {:induction false} EveryRunIsCareful(roads: Roads, dt: real, run: seq<Fleet>, events: seq<Event>, n: nat)
    requires Homing(roads) && 0.0 < dt && Run(roads, dt, run, events) && n <= |events|
    ensures Careful(roads.d, dt, Leeway(dt, dt), run, events, n)
  {
    if n > 0 {
      EveryRunIsCareful(roads, dt, run, events, n - 1);
      AlwaysInvWithin(roads, dt, Leeway(dt, dt), run, events, n - 1);
      FullLeeway(roads.d, dt, run[n - 1], events[n - 1]);
    }
  }

  /** The invariant with a leeway of one tick holds in every state of every run. */
  lemma AlwaysInv(roads: Roads, dt: real, run: seq<Fleet>, events: seq<Event>, i: nat)
    requires Homing(roads) && 0.0 < dt && Run(roads, dt, run, events) && i < |run|
    ensures Inv(roads, dt, Leeway(dt, dt), run[i])
  {
    EveryRunIsCareful(roads, dt, run, events, i);
    AlwaysInvWithin(roads, dt, Leeway(dt, dt), run, events, i);
  }

  // ---------------------------------------------------------------- what riders get

  /** A state of a run of the simulator with straight roads. */
  ghost predicate Reachable(d: Distance, dt: real, f: Fleet) {
    exists run, events :: Run(StraightRoads(d), dt, run, events) && run[|events|] == f
  }

  /** A state of a run in which every event is within the leeway. */
  ghost predicate ReachableWithin(d: Distance, dt: real, w: Leeway, f: Fleet) {
    exists run, events ::
      Run(StraightRoads(d), dt, run, events) && Careful(d, dt, w, run, events, |events|) && run[|events|] == f
  }

  lemma ReachesInitial(d: Distance, dt: real, w: Leeway, f: Fleet)
    requires Initial(f)
    ensures ReachableWithin(d, dt, w, f)
  {
    var run, events: seq<Event> := [f], [];
    assert Run(StraightRoads(d), dt, run, events) && Careful(d, dt, w, run, events, 0) && run[|events|] == f;
  }

  lemma ReachesAfter(d: Distance, dt: real, w: Leeway, f: Fleet, e: Event, g: Fleet)
    requires ReachableWithin(d, dt, w, f) && Enabled(StraightRoads(d), f, e) && Within(d, dt, w, f, e)
    requires g == After(StraightRoads(d), dt, f, e)
    ensures ReachableWithin(d, dt, w, g)
  {
    var run, events :| Run(StraightRoads(d), dt, run, events) && Careful(d, dt, w, run, events, |events|)
                    && run[|events|] == f;
    var longer, more := run + [g], events + [e];
    forall i | 0 <= i < |more|
      ensures Enabled(StraightRoads(d), longer[i], more[i]) && Within(d, dt, w, longer[i], more[i])
      ensures longer[i + 1] == After(StraightRoads(d), dt, longer[i], more[i])
    {
      if i < |events| {
        assert longer[i] == run[i] && more[i] == events[i] && longer[i + 1] == run[i + 1];
        assert Enabled(StraightRoads(d), run[i], events[i]) && Within(d, dt, w, run[i], events[i]);
      }
    }
    assert Run(StraightRoads(d), dt, longer, more) && longer[|more|] == g;
  }

  /** Every run is within a leeway of one tick. */
  lemma ReachableIsWithin(d: Distance, dt: real, f: Fleet)
    requires Metric(d) && 0.0 < dt
    ensures Reachable(d, dt, f) <==> ReachableWithin(d, dt, Leeway(dt, dt), f)
  {
    if Reachable(d, dt, f) {
      var run, events :| Run(StraightRoads(d), dt, run, events) && run[|events|] == f;
      StraightIsHoming(d);
      EveryRunIsCareful(StraightRoads(d), dt, run, events, |events|);
    }
  }

  lemma ReachableInv(d: Distance, dt: real, w: Leeway, f: Fleet)
    requires Metric(d) && 0.0 < dt && w.Ok() && ReachableWithin(d, dt, w, f)
    ensures Inv(StraightRoads(d), dt, w, f)
  {
    var run, events :| Run(StraightRoads(d), dt, run, events) && Careful(d, dt, w, run, events, |events|)
                    && run[|events|] == f;
    StraightIsHoming(d);
    AlwaysInvWithin(StraightRoads(d), dt, w, run, events, |events|);
  }

  /** In a run within the leeway no rider is served later than the limits and the leeway allow,
      whatever else the vehicle is given to do.  Without leeway the limits themselves are kept. */
  lemma RidersAreServedWithin(d: Distance, dt: real, w: Leeway, f: Fleet, id: int)
    requires Metric(d) && 0.0 < dt && w.Ok() && ReachableWithin(d, dt, w, f) && id in f.requests
    ensures RiderServed(d, w, f.now, f.requests[id])
  {
    ReachableInv(d, dt, w, f);
  }

  /** No rider waits longer than the limit plus one tick, and no ride takes longer than the detour
      limit plus one tick, whatever else the vehicle is given to do. */
  lemma RidersAreServed(d: Distance, dt: real, f: Fleet, id: int)
    requires Metric(d) && 0.0 < dt && Reachable(d, dt, f) && id in f.requests
    ensures var r := f.requests[id];
            && (r.pickupTime.Some? ==> r.pickupTime.value - r.requestTime <= r.maxWait + dt)
            && (r.dropoffTime.Some? ==>
                  && r.pickupTime.Some?
                  && r.pickupTime.value <= r.dropoffTime.value <= f.now
                  && (r.DirectTravelTime(d) > 0.0 ==>
                        r.dropoffTime.value - r.pickupTime.value <= r.RideLimit(d) + dt))
            && (r.assignedVehicle.None? <==> r.status.Pending? || r.status.Rejected?)
            && (r.pickupTime.Some? <==> r.status.Onboard? || r.status.Completed?)
            && (r.dropoffTime.Some? <==> r.status.Completed?)
  {
    ReachableIsWithin(d, dt, f);
    RidersAreServedWithin(d, dt, Leeway(dt, dt), f, id);
  }

  lemma {:induction false} ClockNotBefore(d: Distance, loc: Point, now: real, route: seq<Stop>, k: nat)
    requires Metric(d) && k <= |route|
    ensures now <= Clock(d, loc, now, route, k)
  {
    if k > 0 {
      ClockNotBefore(d, loc, now, route, k - 1);
      assert d(Before(loc, route, k - 1), route[k - 1].location) >= 0.0;
    }
  }

  /** The remaining stop of an assigned rider. */
  lemma StopAhead(d: Distance, v: VehicleState, requests: map<int, RequestState>, id: int, stopType: StopType)
    returns (k: nat)
    requires Sound(d, v, requests) && id in requests && requests[id].assignedVehicle == Some(v.id)
    requires if stopType.Pickup? then requests[id].pickupTime.None? else requests[id].dropoffTime.None?
    ensures k < |v.route| && v.route[k].stopType == stopType && v.route[k].requestId == id
    ensures StopOf(d, v.route[k], requests[id])
  {
    assert Has(v.route, id, stopType);
    k :| 0 <= k < |v.route| && v.route[k].requestId == id && v.route[k].stopType == stopType;
    assert LinkedStop(d, v.id, v.route[k], requests);
  }

  /** A position at which a stop is still kept stands for a time within the limit of the stop. */
  lemma KeptIsDue(d: Distance, loc: Point, q: real, route: seq<Stop>, k: nat, w: Leeway)
    requires Metric(d) && k < |route| && Kept(d, loc, q, route, k, w)
    ensures route[k].stopType.Pickup? ==> q <= route[k].requestTime + route[k].maxWait + w.wait
    ensures (route[k].stopType.Dropoff? && LastPickup(route, route[k].requestId, k).None? && route[k].boardedAt.Some?
             && route[k].directTime > 0.0) ==> q <= route[k].boardedAt.value + route[k].RideLimit() + w.ride
  {
    ClockNotBefore(d, loc, q, route, k + 1);
  }

  lemma PickupDue(d: Distance, w: Leeway, v: VehicleState, requests: map<int, RequestState>, id: int, q: real)
    requires Metric(d) && Sound(d, v, requests) && AllKept(d, v.location, q, v.route, w)
    requires id in requests && requests[id].assignedVehicle == Some(v.id) && requests[id].pickupTime.None?
    ensures q <= requests[id].requestTime + requests[id].maxWait + w.wait
  {
    var k := StopAhead(d, v, requests, id, Pickup);
    StopLimits(d, v.route[k], requests[id]);
    KeptIsDue(d, v.location, q, v.route, k, w);
  }

  lemma DropoffDue(d: Distance, w: Leeway, v: VehicleState, requests: map<int, RequestState>, id: int, q: real)
    requires Metric(d) && Sound(d, v, requests) && AllKept(d, v.location, q, v.route, w)
    requires id in requests && requests[id].assignedVehicle == Some(v.id) && requests[id].DirectTravelTime(d) > 0.0
    requires requests[id].pickupTime.Some? && requests[id].dropoffTime.None?
    ensures q <= requests[id].pickupTime.value + requests[id].RideLimit(d) + w.ride
  {
    var k := StopAhead(d, v, requests, id, Dropoff);
    StopLimits(d, v.route[k], requests[id]);
    KeptIsDue(d, v.location, q, v.route, k, w);
  }

  /** In a run within the leeway: once the positions stand for a time past the pickup deadline and the
      leeway, an assigned rider is on board; once they stand for a time past the dropoff deadline and the
      leeway, the rider has been dropped off. */
  lemma RidersAreServedInTimeWithin(d: Distance, dt: real, w: Leeway, f: Fleet, id: int)
    requires Metric(d) && 0.0 < dt && w.Ok() && ReachableWithin(d, dt, w, f)
    requires id in f.requests && f.requests[id].assignedVehicle.Some?
    ensures var r := f.requests[id];
            && (f.q > r.requestTime + r.maxWait + w.wait ==> r.pickupTime.Some?)
            && (r.pickupTime.Some? && r.DirectTravelTime(d) > 0.0 && f.q > r.pickupTime.value + r.RideLimit(d) + w.ride ==>
                  r.dropoffTime.Some?)
  {
    ReachableInv(d, dt, w, f);
    var r := f.requests[id];
    var vid := r.assignedVehicle.value;
    assert RideOk(StraightRoads(d), w, f, vid, f.q);
    var v := f.store.vehicles[vid];
    if r.pickupTime.None? {
      PickupDue(d, w, v, f.requests, id, f.q);
    } else if r.dropoffTime.None? && r.DirectTravelTime(d) > 0.0 {
      DropoffDue(d, w, v, f.requests, id, f.q);
    }
  }

  /** Once the world has ticked at a time past the pickup deadline, an assigned rider is on board;
      once it has ticked past the dropoff deadline, the rider has been dropped off.  The last tick
      was at `q - dt`. */
  lemma RidersAreServedInTime(d: Distance, dt: real, f: Fleet, id: int)
    requires Metric(d) && 0.0 < dt && Reachable(d, dt, f)
    requires id in f.requests && f.requests[id].assignedVehicle.Some?
    ensures var r := f.requests[id];
            && (f.q - dt > r.requestTime + r.maxWait ==> r.pickupTime.Some?)
            && (r.pickupTime.Some? && r.DirectTravelTime(d) > 0.0 && f.q - dt > r.pickupTime.value + r.RideLimit(d) ==>
                  r.dropoffTime.Some?)
  {
    ReachableIsWithin(d, dt, f);
    RidersAreServedInTimeWithin(d, dt, Leeway(dt, dt), f, id);
  }

  /** The number on board is the number of people whose pickup is behind the vehicle and whose
      dropoff is ahead; seats never run out on the way; each request is picked up at most once,
      before it is dropped off; an empty route means an empty vehicle. */
  lemma SeatsAreConserved(d: Distance, dt: real, f: Fleet, vid: int)
    requires Metric(d) && 0.0 < dt && Reachable(d, dt, f) && vid in f.store.vehicles
    ensures var v := f.store.vehicles[vid];
            && v.onboard == Riders(v.route, {})
            && (forall k :: 0 <= k <= |v.route| ==> 0 <= Load(v.onboard, v.route, k) <= v.capacity)
            && OncePerKind(v.route) && PickupsServed(v.route)
            && (v.route == [] ==> v.onboard == 0)
            && (v.route != [] && v.route[0].stopType.Dropoff? ==> v.onboard - v.route[0].partySize >= 0)
  {
    ReachableIsWithin(d, dt, f);
    ReachableInv(d, dt, Leeway(dt, dt), f);
    assert RideOk(StraightRoads(d), Leeway(dt, dt), f, vid, f.q);
    var v := f.store.vehicles[vid];
    RidersAreNetOut(v.route);
    forall k | 0 <= k <= |v.route| ensures 0 <= Load(v.onboard, v.route, k) <= v.capacity {
      LoadNonNegative(v.onboard, v.route, k);
    }
    if v.route != [] && v.route[0].stopType.Dropoff? {
      ClampNeverFires(v);
    }
  }

  /** The replica always knows every vehicle's owner, version and remaining stops. */
  lemma ReplicaKeepsUp(d: Distance, dt: real, f: Fleet, vid: int)
    requires Metric(d) && 0.0 < dt && Reachable(d, dt, f) && vid in f.store.vehicles
    ensures vid in f.store.replica
    ensures var live, rep := f.store.vehicles[vid], f.store.replica[vid];
            && rep.version == live.version && rep.ownerNode == live.ownerNode
            && SuffixOf(live.route, rep.route)
  {
    ReachableIsWithin(d, dt, f);
    ReachableInv(d, dt, Leeway(dt, dt), f);
  }

  // ---------------------------------------------------------------- accounting, on any roads

  /** Every vehicle's distance is 24 km/h times its driving time, and so it will stay. */
  ghost predicate FleetAccounted(f: Fleet) {
    && (forall id :: id in f.store.vehicles ==> Accounted(f.store.vehicles[id]))
    && (forall id :: id in f.segs ==> CachePriced(Some(f.segs[id])))
  }

  lemma {:induction false} MovedAccounts(roads: Roads, dt: real, f: Fleet, k: nat)
    requires FleetAccounted(f) && k <= |f.store.order|
    ensures FleetAccounted(Moved(roads, dt, f, k))
  {
    if k > 0 {
      MovedAccounts(roads, dt, f, k - 1);
      var g, id := Moved(roads, dt, f, k - 1), f.store.order[k - 1];
      if id in g.store.vehicles {
        AdvanceAccounts(roads, TickOf(g, id), dt, f.now);
      }
    }
  }

  lemma StepAccounts(roads: Roads, dt: real, f: Fleet, e: Event)
    requires FleetAccounted(f) && Enabled(roads, f, e)
    ensures FleetAccounted(After(roads, dt, f, e))
  {
    match e
    case WorldTick => MovedAccounts(roads, dt, f, |f.store.order|);
    case Dispatch(id, node, plan) =>
      if plan.Some? {
        BookingAccounts(f, id, node, plan.value);
      }
    case _ =>
  }

  lemma BookingAccounts(f: Fleet, id: int, node: Node, plan: Plan)
    requires FleetAccounted(f) && id in f.requests
    ensures FleetAccounted(Confirm(f, id, node, plan))
  {
  }

  /** In every run, on any roads, starting from vehicles that have not moved. */
  lemma {:induction false} AlwaysAccounted(roads: Roads, dt: real, run: seq<Fleet>, events: seq<Event>, i: nat)
    requires Run(roads, dt, run, events) && i < |run| && FleetAccounted(run[0])
    ensures FleetAccounted(run[i])
  {
    if i > 0 {
      AlwaysAccounted(roads, dt, run, events, i - 1);
      StepAccounts(roads, dt, run[i - 1], events[i - 1]);
    }
  }
}
