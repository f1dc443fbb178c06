/** The vehicle store (store.py): one writer per vehicle, optimistic versions,
    and a replica written at every commit and change of owner. */
module Store {
  import opened Models
  import opened Promises
  import opened Riding

  datatype CommitResult = CommitResult(ok: bool, reason: string, version: int)

  /** What the store holds.  `order` is the order in which the vehicles were registered, the
      order in which they are listed. */
  datatype StoreState = StoreState(
    vehicles: map<int, VehicleState>,
    replica: map<int, VehicleState>,
    order: seq<int>,
    blockedConflicts: nat,
    blockedNotOwner: nat)

  /** Vehicle `id` is written, and replicated. */
  function Written(s: StoreState, id: int, v: VehicleState): StoreState {
    s.(vehicles := s.vehicles[id := v], replica := s.replica[v.id := v])
  }

  /** The store after `commit_assignment`. */
  function Committed(s: StoreState, id: int, expected: nat, newRoute: seq<Stop>, node: Node): StoreState {
    if id !in s.vehicles then s
    else if s.vehicles[id].ownerNode != Some(node) then s.(blockedNotOwner := s.blockedNotOwner + 1)
    else if s.vehicles[id].version != expected then s.(blockedConflicts := s.blockedConflicts + 1)
    else
      Written(s, id, s.vehicles[id].(route := newRoute, version := s.vehicles[id].version + 1))
  }

  /** The answer of `commit_assignment`. */
  function CommitAnswer(s: StoreState, id: int, expected: nat, node: Node): CommitResult {
    if id !in s.vehicles then CommitResult(false, "not_found", -1)
    else if s.vehicles[id].ownerNode != Some(node) then CommitResult(false, "not_owner", s.vehicles[id].version)
    else if s.vehicles[id].version != expected then CommitResult(false, "version_conflict", s.vehicles[id].version)
    else CommitResult(true, "", s.vehicles[id].version + 1)
  }

  /** The store after `reassign_owner`. */
  function Reassigned(s: StoreState, id: int, newOwner: Node): StoreState {
    if id !in s.vehicles then s
    else
      Written(s, id, s.vehicles[id].(ownerNode := Some(newOwner), version := s.vehicles[id].version + 1))
  }

  /** The store after `register`. */
  function Registered(s: StoreState, v: VehicleState): StoreState {
    s.(vehicles := s.vehicles[v.id := v], replica := s.replica[v.id := v],
       order := if v.id in s.vehicles then s.order else s.order + [v.id])
  }

  // ---------------------------------------------------------------- runs

  /** What can happen to a stored vehicle: a commit attempt, a change of owner, or motion, which
      changes position, seats, boarding times, reposition target, and pops stops. */
  datatype Op =
    | Commit(id: int, expected: nat, newRoute: seq<Stop>, node: Node)
    | Reassign(id: int, newOwner: Node)
    | Move(id: int, to: VehicleState)

  ghost function Apply(s: StoreState, op: Op): StoreState {
    match op
    case Commit(id, expected, newRoute, node) => Committed(s, id, expected, newRoute, node)
    case Reassign(id, newOwner) => Reassigned(s, id, newOwner)
    case Move(id, to) =>
      if id in s.vehicles && SameVehicle(s.vehicles[id], to) then s.(vehicles := s.vehicles[id := to]) else s
  }

  /** The store after the first `k` operations. */
  ghost function After(s: StoreState, ops: seq<Op>, k: nat): StoreState
    requires k <= |ops|
  {
    if k == 0 then s else Apply(After(s, ops, k - 1), ops[k - 1])
  }

  /** `op` is a successful commit on vehicle `id`. */
  predicate Commits(s: StoreState, op: Op, id: int) {
    op.Commit? && op.id == id && CommitAnswer(s, id, op.expected, op.node).ok
  }

  /** `op` is a successful commit on vehicle `id`, or gives it an owner. */
  predicate Writes(s: StoreState, op: Op, id: int) {
    Commits(s, op, id) || (op.Reassign? && op.id == id && id in s.vehicles)
  }

  /** How many of the operations `i` to `j` write vehicle `id`. */
  ghost function WriteCount(s: StoreState, ops: seq<Op>, id: int, i: nat, j: nat): nat
    requires i <= j <= |ops|
  {
    if i == j then 0
    else WriteCount(s, ops, id, i, j - 1) + if Writes(After(s, ops, j - 1), ops[j - 1], id) then 1 else 0
  }

  /** Vehicles are filed under their own id. */
  ghost predicate Keyed(s: StoreState) {
    forall id :: id in s.vehicles ==> s.vehicles[id].id == id
  }

  lemma {:induction false} KeyedAfter(s: StoreState, ops: seq<Op>, k: nat)
    requires Keyed(s) && k <= |ops|
    ensures Keyed(After(s, ops, k)) && After(s, ops, k).vehicles.Keys == s.vehicles.Keys
  {
    if k > 0 {
      KeyedAfter(s, ops, k - 1);
    }
  }

  /** The version counts the writes; without a write the owner stays. */
  lemma {:induction false} VersionCountsWrites(s: StoreState, ops: seq<Op>, id: int, i: nat, j: nat)
    requires i <= j <= |ops| && id in After(s, ops, i).vehicles
    ensures id in After(s, ops, j).vehicles
    ensures After(s, ops, j).vehicles[id].version == After(s, ops, i).vehicles[id].version + WriteCount(s, ops, id, i, j)
    ensures WriteCount(s, ops, id, i, j) == 0 ==>
              After(s, ops, j).vehicles[id].ownerNode == After(s, ops, i).vehicles[id].ownerNode
    decreases j
  {
    if i < j {
      VersionCountsWrites(s, ops, id, i, j - 1);
    }
  }

  /** A plan made from the version read after operation `i` and committed after operation `j` goes
      through exactly when its node owned the vehicle when it read it and nobody has written the
      vehicle since.  If the node owns the vehicle again, the refusal is a version conflict. */
  lemma PlanCommitsIff(s: StoreState, ops: seq<Op>, id: int, i: nat, j: nat, node: Node)
    requires i <= j <= |ops| && id in After(s, ops, i).vehicles
    ensures id in After(s, ops, j).vehicles
    ensures var read, now := After(s, ops, i).vehicles[id], After(s, ops, j).vehicles[id];
            var answer := CommitAnswer(After(s, ops, j), id, read.version, node);
            && (answer.ok <==> WriteCount(s, ops, id, i, j) == 0 && read.ownerNode == Some(node))
            && (WriteCount(s, ops, id, i, j) > 0 && now.ownerNode == Some(node) ==> answer.reason == "version_conflict")
  {
    VersionCountsWrites(s, ops, id, i, j);
  }

  lemma {:induction false} WriteCounted(s: StoreState, ops: seq<Op>, id: int, i: nat, j: nat)
    requires i < j <= |ops| && Writes(After(s, ops, i), ops[i], id)
    ensures WriteCount(s, ops, id, i, j) > 0
    decreases j
  {
    if i + 1 < j {
      WriteCounted(s, ops, id, i, j - 1);
    }
  }

  /** Two successful commits on one vehicle were planned from different versions, the later one
      from the higher. */
  lemma CommitsIncrease(s: StoreState, ops: seq<Op>, id: int, i: nat, j: nat)
    requires i < j < |ops| && Commits(After(s, ops, i), ops[i], id) && Commits(After(s, ops, j), ops[j], id)
    ensures ops[j].expected == ops[i].expected + WriteCount(s, ops, id, i, j) > ops[i].expected
  {
    VersionCountsWrites(s, ops, id, i, j);
    WriteCounted(s, ops, id, i, j);
  }

  /** A commit attempt on a vehicle that belongs to somebody else, and one that comes too late for its version. */
  predicate Foreign(s: StoreState, op: Op) {
    op.Commit? && op.id in s.vehicles && s.vehicles[op.id].ownerNode != Some(op.node)
  }

  predicate Stale(s: StoreState, op: Op) {
    op.Commit? && op.id in s.vehicles && s.vehicles[op.id].ownerNode == Some(op.node)
    && s.vehicles[op.id].version != op.expected
  }

  /** How many of the first `k` operations are of a kind. */
  ghost function HowMany(s: StoreState, ops: seq<Op>, k: nat, kind: (StoreState, Op) -> bool): nat
    requires k <= |ops|
  {
    if k == 0 then 0 else HowMany(s, ops, k - 1, kind) + if kind(After(s, ops, k - 1), ops[k - 1]) then 1 else 0
  }

  /** The counters count the attempts refused for each of the two reasons. */
  lemma {:induction false} RefusalsAreCounted(s: StoreState, ops: seq<Op>, k: nat)
    requires k <= |ops|
    ensures After(s, ops, k).blockedNotOwner == s.blockedNotOwner + HowMany(s, ops, k, Foreign)
    ensures After(s, ops, k).blockedConflicts == s.blockedConflicts + HowMany(s, ops, k, Stale)
  {
    if k > 0 {
      RefusalsAreCounted(s, ops, k - 1);
    }
  }

  // ---------------------------------------------------------------- the replica

  /** The replica knows the vehicle's owner and version, and the stops still to be made. */
  ghost predicate Agrees(live: VehicleState, rep: VehicleState) {
    && rep.id == live.id && rep.capacity == live.capacity && rep.homeCell == live.homeCell
    && rep.ownerNode == live.ownerNode && rep.version == live.version
    && SuffixOf(live.route, rep.route)
  }

  ghost predicate ReplicaAgrees(s: StoreState) {
    forall id :: id in s.vehicles ==> id in s.replica && Agrees(s.vehicles[id], s.replica[id])
  }

  lemma MoveAgrees(live: VehicleState, to: VehicleState, rep: VehicleState)
    requires Agrees(live, rep) && SameVehicle(live, to)
    ensures Agrees(to, rep)
  {
    SuffixTransitive(rep.route, live.route, to.route);
  }

  lemma WriteAgrees(s: StoreState, id: int, v: VehicleState)
    requires Keyed(s) && ReplicaAgrees(s) && v.id == id
    ensures ReplicaAgrees(Written(s, id, v))
  {
  }

  /** Every operation keeps the replica in agreement. */
  lemma StillAgrees(s: StoreState, op: Op)
    requires Keyed(s) && ReplicaAgrees(s)
    ensures ReplicaAgrees(Apply(s, op))
  {
    match op
    case Commit(id, expected, newRoute, node) =>
      if CommitAnswer(s, id, expected, node).ok {
        WriteAgrees(s, id, s.vehicles[id].(route := newRoute, version := s.vehicles[id].version + 1));
      }
    case Reassign(id, newOwner) =>
      if id in s.vehicles {
        WriteAgrees(s, id, s.vehicles[id].(ownerNode := Some(newOwner), version := s.vehicles[id].version + 1));
      }
    case Move(id, to) =>
      if id in s.vehicles && SameVehicle(s.vehicles[id], to) {
        MoveAgrees(s.vehicles[id], to, s.replica[id]);
      }
  }

  /** The replica agrees with the live vehicles after any run, although motion is not replicated. */
  lemma {:induction false} ReplicaAlwaysAgrees(s: StoreState, ops: seq<Op>, k: nat)
    requires Keyed(s) && ReplicaAgrees(s) && k <= |ops|
    ensures ReplicaAgrees(After(s, ops, k))
  {
    if k > 0 {
      KeyedAfter(s, ops, k - 1);
      ReplicaAlwaysAgrees(s, ops, k - 1);
      StillAgrees(After(s, ops, k - 1), ops[k - 1]);
    }
  }

  /** Without a write of the vehicle its replica does not change. */
  lemma {:induction false} ReplicaKept(s: StoreState, ops: seq<Op>, id: int, i: nat, k: nat)
    requires Keyed(s) && i <= k <= |ops| && WriteCount(s, ops, id, i, k) == 0 && id in After(s, ops, i).replica
    ensures id in After(s, ops, k).replica && After(s, ops, k).replica[id] == After(s, ops, i).replica[id]
    decreases k
  {
    if i < k {
      ReplicaKept(s, ops, id, i, k - 1);
      KeyedAfter(s, ops, k - 1);
    }
  }

  /** The replica is the vehicle as it was right after it was last written, however it has moved since; so it shows
      the live vehicle exactly if the vehicle is still as it was then. */
  lemma ReplicaIsSnapshot(s: StoreState, ops: seq<Op>, id: int, i: nat, k: nat)
    requires Keyed(s) && i < k <= |ops| && Writes(After(s, ops, i), ops[i], id) && WriteCount(s, ops, id, i + 1, k) == 0
    ensures id in After(s, ops, k).replica && id in After(s, ops, i + 1).vehicles
    ensures After(s, ops, k).replica[id] == After(s, ops, i + 1).vehicles[id]
  {
    KeyedAfter(s, ops, i);
    ReplicaKept(s, ops, id, i + 1, k);
  }

  lemma RegisteredAgrees(s: StoreState, v: VehicleState)
    requires Keyed(s) && ReplicaAgrees(s)
    ensures Keyed(Registered(s, v)) && ReplicaAgrees(Registered(s, v))
  {
  }

  // ---------------------------------------------------------------- the store itself

  /** The vehicles of `ids` owned by `node`, in order. */
  function OwnedIds(s: StoreState, ids: seq<int>, node: Node): (owned: seq<int>)
    ensures forall k :: 0 <= k < |owned| ==> owned[k] in s.vehicles && s.vehicles[owned[k]].ownerNode == Some(node)
  {
    if ids == [] then []
    else
      var front := OwnedIds(s, ids[..|ids| - 1], node);
      var id := ids[|ids| - 1];
      if id in s.vehicles && s.vehicles[id].ownerNode == Some(node) then front + [id] else front
  }

  /** Of the ids listed, exactly those of the node's vehicles. */
  lemma {:induction false} OwnedIdsAre(s: StoreState, ids: seq<int>, node: Node, id: int)
    ensures id in OwnedIds(s, ids, node) <==> id in ids && id in s.vehicles && s.vehicles[id].ownerNode == Some(node)
  {
    if ids != [] {
      OwnedIdsAre(s, ids[..|ids| - 1], node, id);
      assert ids == ids[..|ids| - 1] + [ids[|ids| - 1]];
    }
  }

  /** `x` is listed before `y`. */
  predicate ListedBefore(ids: seq<int>, x: int, y: int) {
    exists a, b :: 0 <= a < b < |ids| && ids[a] == x && ids[b] == y
  }

  /** They keep their order. */
  lemma {:induction false} OwnedIdsInOrder(s: StoreState, ids: seq<int>, node: Node, i: nat, j: nat)
    requires i < j < |OwnedIds(s, ids, node)|
    ensures ListedBefore(ids, OwnedIds(s, ids, node)[i], OwnedIds(s, ids, node)[j])
  {
    var front, owned := ids[..|ids| - 1], OwnedIds(s, ids, node);
    var before := OwnedIds(s, front, node);
    if j < |before| {
      OwnedIdsInOrder(s, front, node, i, j);
      var a, b :| 0 <= a < b < |front| && front[a] == before[i] && front[b] == before[j];
      assert ids[a] == owned[i] && ids[b] == owned[j];
    } else {
      OwnedIdsAre(s, front, node, owned[i]);
      var a :| 0 <= a < |front| && front[a] == owned[i];
      assert ids[a] == owned[i] && ids[|ids| - 1] == owned[j];
    }
  }

  class VehicleStore {
    var vehicles: map<int, Vehicle>
    var order: seq<int>
    var replica: map<int, VehicleState>
    var blockedConflicts: nat
    var blockedNotOwner: nat

    /** Vehicles are filed under their own id, and listed once each. */
    ghost predicate Valid()
      reads this`vehicles, this`order
    {
      && (forall id :: id in vehicles ==> vehicles[id].id == id)
      && (forall id :: id in order <==> id in vehicles)
      && (forall i, j :: 0 <= i < j < |order| ==> order[i] != order[j])
    }

    ghost function View(): StoreState
      reads this, vehicles.Values, (set id, s | id in vehicles && s in vehicles[id].route :: s)`boardedAt
    {
      StoreState(map id | id in vehicles :: vehicles[id].View(), replica, order, blockedConflicts, blockedNotOwner)
    }

    constructor ()
      ensures Valid() && View() == StoreState(map[], map[], [], 0, 0)
    {
      vehicles, order, replica, blockedConflicts, blockedNotOwner := map[], [], map[], 0, 0;
    }

    method Replicate(vehicle: Vehicle)
      modifies this`replica
      ensures replica == old(replica)[vehicle.id := vehicle.View()]
    {
      var snapshot := Snapshot(vehicle);
      replica := replica[vehicle.id := snapshot];
    }

    /** A deep copy of a vehicle. */
    static method Snapshot(vehicle: Vehicle) returns (copy: VehicleState)
      ensures copy == vehicle.View()
    {
      var stops: seq<Stop> := [];
      for k := 0 to |vehicle.route|
        invariant |stops| == k
        invariant forall j :: 0 <= j < k ==> stops[j] == vehicle.route[j].View()
      {
        stops := stops + [vehicle.route[k].View()];
      }
      copy := VehicleState(vehicle.id, vehicle.location, vehicle.capacity, stops, vehicle.onboard, vehicle.homeCell,
                           vehicle.ownerNode, vehicle.version, vehicle.repositionTarget,
                           vehicle.distanceTraveled, vehicle.busyTime);
    }

    method Register(vehicle: Vehicle)
      requires Valid()
      modifies this
      ensures Valid() && vehicles == old(vehicles)[vehicle.id := vehicle]
      ensures View() == Registered(old(View()), vehicle.View())
    {
      File(vehicle);
      Replicate(vehicle);
    }

    /** Entering a vehicle under its id, and in the listing if it is new. */
    method File(vehicle: Vehicle)
      requires Valid()
      modifies this`vehicles, this`order
      ensures Valid() && vehicles == old(vehicles)[vehicle.id := vehicle]
      ensures order == if vehicle.id in old(vehicles) then old(order) else old(order) + [vehicle.id]
      ensures View().vehicles == old(View()).vehicles[vehicle.id := vehicle.View()]
    {
      if vehicle.id !in vehicles {
        order := order + [vehicle.id];
      }
      vehicles := vehicles[vehicle.id := vehicle];
    }

    /** `vehicles_owned_by`: the candidates of a worker, in listing order. */
    method VehiclesOwnedBy(node: Node) returns (owned: seq<Vehicle>)
      requires Valid()
      ensures forall id :: id in vehicles ==> (vehicles[id] in owned <==> vehicles[id].ownerNode == Some(node))
      ensures forall k :: 0 <= k < |owned| ==> owned[k].id in vehicles && owned[k] == vehicles[owned[k].id]
      ensures forall i, j :: 0 <= i < j < |owned| ==> owned[i] != owned[j] && ListedBefore(order, owned[i].id, owned[j].id)
      ensures |owned| == |OwnedIds(View(), order, node)|
      ensures forall k :: 0 <= k < |owned| ==> owned[k].id == OwnedIds(View(), order, node)[k]
    {
      owned := [];
      ghost var s := View();
      for i := 0 to |order|
        invariant |owned| == |OwnedIds(s, order[..i], node)|
        invariant forall k :: 0 <= k < |owned| ==>
                    && owned[k].id == OwnedIds(s, order[..i], node)[k]
                    && owned[k].id in vehicles && owned[k] == vehicles[owned[k].id]
      {
        assert order[..i + 1][..i] == order[..i];
        assert order[i] in order;
        var v := vehicles[order[i]];
        if v.ownerNode == Some(node) {
          owned := owned + [v];
        }
      }
      assert order[..|order|] == order;
      ExactlyTheOwned(node, owned);
    }

    /** What it means for the vehicles that their ids are the owned ones. */
    lemma ExactlyTheOwned(node: Node, owned: seq<Vehicle>)
      requires Valid() && |owned| == |OwnedIds(View(), order, node)|
      requires forall k :: 0 <= k < |owned| ==>
                 && owned[k].id == OwnedIds(View(), order, node)[k]
                 && owned[k].id in vehicles && owned[k] == vehicles[owned[k].id]
      ensures forall id :: id in vehicles ==> (vehicles[id] in owned <==> vehicles[id].ownerNode == Some(node))
      ensures forall i, j :: 0 <= i < j < |owned| ==> owned[i] != owned[j] && ListedBefore(order, owned[i].id, owned[j].id)
    {
      var ids := OwnedIds(View(), order, node);
      forall id | id in vehicles ensures vehicles[id] in owned <==> vehicles[id].ownerNode == Some(node) {
        OwnedIdsAre(View(), order, node, id);
        assert View().vehicles[id] == vehicles[id].View();
        if id in ids {
          var k :| 0 <= k < |ids| && ids[k] == id;
          assert owned[k] == vehicles[id];
        }
      }
      forall i, j | 0 <= i < j < |owned| ensures owned[i] != owned[j] && ListedBefore(order, owned[i].id, owned[j].id) {
        OwnedIdsInOrder(View(), order, node, i, j);
      }
    }

    /** No stop object is on two routes, or twice on one. */
    ghost predicate Apart()
      reads this`vehicles, vehicles.Values`route
    {
      && (forall id :: id in vehicles ==> Distinct(vehicles[id].route))
      && (forall a, b, s :: a in vehicles && b in vehicles && a != b && s in vehicles[a].route ==> s !in vehicles[b].route)
    }

    /** Shortening one vehicle's route keeps the stops apart. */
    twostate lemma ApartAfter(id: int)
      requires old(Apart()) && vehicles == old(vehicles) && id in vehicles
      requires forall other :: other in vehicles && other != id ==> vehicles[other].route == old(vehicles[other].route)
      requires |vehicles[id].route| <= |old(vehicles[id].route)|
      requires vehicles[id].route == old(vehicles[id].route)[|old(vehicles[id].route)| - |vehicles[id].route|..]
      ensures Apart()
    {
    }

    /** The stops on any route. */
    ghost function AllStops(): set<RouteStop>
      reads this`vehicles, vehicles.Values`route
    {
      set id, s | id in vehicles && s in vehicles[id].route :: s
    }

    /** Vehicles have got no stops but new ones. */
    twostate predicate OnlyNewStops()
      reads this`vehicles, vehicles.Values`route
    {
      forall s :: s in AllStops() ==> s in old(AllStops()) || fresh(s)
    }

    /** A route for vehicle `id` made of stops that no other vehicle has. */
    ghost predicate OwnRoute(id: int, route: seq<RouteStop>)
      reads this`vehicles, vehicles.Values`route
    {
      Distinct(route) && forall other, s :: other in vehicles && other != id && s in route ==> s !in vehicles[other].route
    }

    /** No vehicle but one looks different. */
    twostate predicate OthersLookTheSame(vehicleId: int)
      reads this`vehicles, vehicles.Values
      reads (set id, s | id in vehicles && s in vehicles[id].route :: s)`boardedAt
    {
      vehicles == old(vehicles)
      && forall id :: id in vehicles && id != vehicleId ==> vehicles[id].View() == old(vehicles[id].View())
    }

    /** If only one vehicle looks different, the listing changed there only. */
    twostate lemma OneVehicleChanged(vehicleId: int)
      requires vehicleId in vehicles && OthersLookTheSame(vehicleId)
      ensures View().vehicles == old(View()).vehicles[vehicleId := vehicles[vehicleId].View()]
    {
      forall id | id in vehicles && id != vehicleId ensures View().vehicles[id] == old(View()).vehicles[id] {
      }
    }

    /** No vehicle but `id` has a new route. */
    twostate predicate OthersKeepRoutes(id: int)
      reads this`vehicles, vehicles.Values`route
    {
      vehicles == old(vehicles)
      && forall other :: other in vehicles && other != id ==> vehicles[other].route == old(vehicles[other].route)
    }

    /** A route of its own for one vehicle keeps the stops apart. */
    twostate lemma ApartWithOwn(id: int)
      requires old(Valid() && Apart()) && OthersKeepRoutes(id) && id in vehicles && OwnRoute(id, vehicles[id].route)
      ensures Apart()
    {
    }

    /** `commit_assignment`. */
    method CommitAssignment(vehicleId: int, expectedVersion: nat, newRoute: seq<RouteStop>, byNode: Node)
      returns (result: CommitResult)
      requires Valid()
      modifies this`replica, this`blockedConflicts, this`blockedNotOwner
      modifies (set id | id == vehicleId && id in vehicles :: vehicles[id])`route
      modifies (set id | id == vehicleId && id in vehicles :: vehicles[id])`version
      ensures Valid()
      ensures result == CommitAnswer(old(View()), vehicleId, expectedVersion, byNode)
      ensures View() == Committed(old(View()), vehicleId, expectedVersion, Views(newRoute), byNode)
      ensures OthersKeepRoutes(vehicleId)
      ensures result.version == if vehicleId in vehicles then vehicles[vehicleId].version else -1
      ensures result.ok ==> vehicleId in vehicles && vehicles[vehicleId].route == newRoute
      ensures result.ok ==> vehicles[vehicleId].version == expectedVersion + 1 == old(vehicles[vehicleId].version) + 1
      ensures !result.ok && vehicleId in vehicles ==> vehicles[vehicleId].route == old(vehicles[vehicleId].route)
    {
      if vehicleId !in vehicles {
        return CommitResult(false, "not_found", -1);
      }
      var v := vehicles[vehicleId];
      if v.ownerNode != Some(byNode) {
        blockedNotOwner := blockedNotOwner + 1;
        return CommitResult(false, "not_owner", v.version);
      }
      if v.version != expectedVersion {
        blockedConflicts := blockedConflicts + 1;
        return CommitResult(false, "version_conflict", v.version);
      }
      SetRoute(v, newRoute);
      return CommitResult(true, "", v.version);
    }

    /** A new route and a new version for one vehicle, and its replica. */
    method SetRoute(v: Vehicle, newRoute: seq<RouteStop>)
      requires Valid() && v.id in vehicles && vehicles[v.id] == v
      modifies this`replica, v`route, v`version
      ensures v.route == newRoute && v.version == old(v.version) + 1
      ensures View() == Written(old(View()), v.id, old(v.View()).(
                          route := Views(newRoute), version := old(v.version) + 1))
    {
      v.route := newRoute;
      v.version := v.version + 1;
      Replicate(v);
      OneVehicleChanged(v.id);
    }

    /** `reassign_owner`. */
    method ReassignOwner(vehicleId: int, newOwner: Node)
      requires Valid()
      modifies this`replica
      modifies (set id | id == vehicleId && id in vehicles :: vehicles[id])`ownerNode
      modifies (set id | id == vehicleId && id in vehicles :: vehicles[id])`version
      ensures Valid() && View() == Reassigned(old(View()), vehicleId, newOwner)
    {
      if vehicleId !in vehicles {
        return;
      }
      SetOwner(vehicles[vehicleId], newOwner);
    }

    /** A new owner and a new version for one vehicle, and its replica. */
    method SetOwner(v: Vehicle, newOwner: Node)
      requires Valid() && v.id in vehicles && vehicles[v.id] == v
      modifies this`replica, v`ownerNode, v`version
      ensures View() == Written(old(View()), v.id, old(v.View()).(
                          ownerNode := Some(newOwner), version := old(v.version) + 1))
    {
      v.ownerNode := Some(newOwner);
      v.version := v.version + 1;
      Replicate(v);
      OneVehicleChanged(v.id);
    }
  }
}
