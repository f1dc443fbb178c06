/** What a rebalance does to vehicles (coordinator.py, `_rebalance`): every vehicle whose home cell
    has a new owner is handed over, with a new version. */
module Rebalance {
  import opened Models
  import opened Sharding
  import opened Store

  /** `m` gives every cell to its rendezvous owner among `nodes`. */
  ghost predicate Assigns(w: Weight, cells: seq<Cell>, nodes: set<Node>, m: ShardMap) {
    && (forall c :: c in m.cellOwner <==> c in cells && nodes != {})
    && (forall c :: c in m.cellOwner ==> Rendezvous(w, c, nodes, m.cellOwner[c]))
  }

  /** The owner the shard map gives to a vehicle, if any. */
  function HomeOwner(v: VehicleState, m: ShardMap): Option<Node> {
    m.OwnerAt(v.homeCell)
  }

  predicate MovesTo(v: VehicleState, m: ShardMap) {
    HomeOwner(v, m).Some? && v.ownerNode != HomeOwner(v, m)
  }

  /** The store after the first `k` listed vehicles have been looked at. */
  function Transferred(s: StoreState, m: ShardMap, k: nat): StoreState
    requires k <= |s.order|
  {
    if k == 0 then s
    else
      var t := Transferred(s, m, k - 1);
      var id := s.order[k - 1];
      if id in t.vehicles && MovesTo(t.vehicles[id], m) then Reassigned(t, id, HomeOwner(t.vehicles[id], m).value) else t
  }

  /** `t` is the store `s` after a rebalance to `m`. */
  predicate TransferredTo(s: StoreState, m: ShardMap, t: StoreState) {
    match t
    case StoreState(vehicles, replica, order, conflicts, notOwner) =>
      StoreState(vehicles, replica, order, conflicts, notOwner) == Transferred(s, m, |s.order|)
  }

  /** From map `a` and store `s` to map `b` and store `t`: the new map and its owners if a rebalance
      is called for and anybody is alive, else all as it was. */
  ghost predicate Rebalances(w: Weight, cells: seq<Cell>, act: bool, alive: set<Node>, a: ShardMap, b: ShardMap,
                             s: StoreState, t: StoreState)
  {
    match b
    case ShardMap(version, owners, nodes) =>
      if act && alive != {} then Assigns(w, cells, alive, b) && version == a.version + 1 && TransferredTo(s, b, t)
      else ShardMap(version, owners, nodes) == a && t == s
  }

  /** The vehicle after a rebalance to `m`. */
  function Handed(v: VehicleState, m: ShardMap): VehicleState {
    if MovesTo(v, m) then v.(ownerNode := HomeOwner(v, m), version := v.version + 1) else v
  }

  ghost predicate Listed(s: StoreState) {
    && Keyed(s)
    && (forall id :: id in s.order <==> id in s.vehicles)
    && (forall i, j :: 0 <= i < j < |s.order| ==> s.order[i] != s.order[j])
  }

  lemma ListedAt(s: StoreState, j: nat)
    requires Listed(s) && j < |s.order|
    ensures s.order[j] in s.vehicles
  {
    assert s.order[j] in s.order;
  }

  /** Vehicle number `j` after the first `k` have been looked at. */
  ghost predicate HandedAt(s: StoreState, m: ShardMap, t: StoreState, j: nat, k: nat)
    requires j < |s.order|
  {
    var id := s.order[j];
    && id in s.vehicles && id in t.vehicles
    && t.vehicles[id] == if j < k then Handed(s.vehicles[id], m) else s.vehicles[id]
  }

  lemma HandedNext(s: StoreState, m: ShardMap, t: StoreState, j: nat, k: nat)
    requires Listed(s) && k < |s.order| && j < |s.order| && HandedAt(s, m, t, j, k) && HandedAt(s, m, t, k, k)
    ensures var id := s.order[k];
            var next := if MovesTo(t.vehicles[id], m) then Reassigned(t, id, HomeOwner(t.vehicles[id], m).value) else t;
            HandedAt(s, m, next, j, k + 1)
  {
    assert j != k ==> s.order[j] != s.order[k];
  }

  lemma {:induction false} TransferredIs(s: StoreState, m: ShardMap, k: nat)
    requires Listed(s) && k <= |s.order|
    ensures Transferred(s, m, k).vehicles.Keys == s.vehicles.Keys
    ensures forall j :: 0 <= j < |s.order| ==> HandedAt(s, m, Transferred(s, m, k), j, k)
  {
    forall j | 0 <= j < |s.order| ensures HandedAt(s, m, Transferred(s, m, k), j, k) {
      ListedAt(s, j);
      if k > 0 {
        TransferredIs(s, m, k - 1);
        HandedNext(s, m, Transferred(s, m, k - 1), j, k - 1);
      }
    }
    if k > 0 {
      TransferredIs(s, m, k - 1);
      ListedAt(s, k - 1);
    }
  }

  /** A rebalance hands over each vehicle as its home cell says, and touches nothing else. */
  lemma TransferHands(s: StoreState, m: ShardMap, id: int)
    requires Listed(s) && id in s.vehicles
    ensures var t := Transferred(s, m, |s.order|);
            id in t.vehicles && t.vehicles[id] == Handed(s.vehicles[id], m)
  {
    TransferredIs(s, m, |s.order|);
    var j :| 0 <= j < |s.order| && s.order[j] == id;
    assert HandedAt(s, m, Transferred(s, m, |s.order|), j, |s.order|);
  }

  /** Every vehicle with a home cell belongs to the cell's rendezvous owner. */
  ghost predicate OwnersAgree(w: Weight, cells: seq<Cell>, nodes: set<Node>, s: StoreState) {
    forall id :: id in s.vehicles && s.vehicles[id].homeCell.Some? ==>
      && s.vehicles[id].homeCell.value in cells
      && s.vehicles[id].ownerNode.Some?
      && Rendezvous(w, s.vehicles[id].homeCell.value, nodes, s.vehicles[id].ownerNode.value)
  }

  /** From nodes `a` to nodes `b`: owners agree with the new nodes, and a vehicle changes owner, and
      then also version, only if its owner left or its new owner joined. */
  lemma RebalanceMovesLittle(w: Weight, cells: seq<Cell>, a: set<Node>, b: set<Node>, s: StoreState, m: ShardMap, id: int)
    requires Listed(s) && OwnersAgree(w, cells, a, s) && b != {} && Assigns(w, cells, b, m)
    requires id in s.vehicles && s.vehicles[id].homeCell.Some?
    ensures var t := Transferred(s, m, |s.order|);
            id in t.vehicles &&
            var old_, new_ := s.vehicles[id], t.vehicles[id];
            && new_.ownerNode.Some? && Rendezvous(w, old_.homeCell.value, b, new_.ownerNode.value)
            && new_.version == old_.version + (if new_.ownerNode != old_.ownerNode then 1 else 0)
            && (new_.ownerNode != old_.ownerNode ==> old_.ownerNode.value !in b || new_.ownerNode.value !in a)
  {
    TransferHands(s, m, id);
    var v := s.vehicles[id];
    if MovesTo(v, m) {
      MinimalDisruption(w, v.homeCell.value, a, b, v.ownerNode.value, HomeOwner(v, m).value);
    }
  }

  /** After a failure with survivors, exactly the vehicles of the failed workers are handed over, each
      once, and owners again agree with the workers alive. */
  lemma FailureRebalance(w: Weight, cells: seq<Cell>, a: set<Node>, failed: set<Node>, s: StoreState, m: ShardMap)
    requires Listed(s) && OwnersAgree(w, cells, a, s) && a - failed != {} && Assigns(w, cells, a - failed, m)
    ensures var t := Transferred(s, m, |s.order|);
            && t.vehicles.Keys == s.vehicles.Keys
            && OwnersAgree(w, cells, a - failed, t)
            && forall id :: id in s.vehicles ==>
                 if s.vehicles[id].homeCell.Some? && s.vehicles[id].ownerNode.value in failed then
                   t.vehicles[id] == s.vehicles[id].(ownerNode := t.vehicles[id].ownerNode,
                                                     version := s.vehicles[id].version + 1)
                   && t.vehicles[id].ownerNode != s.vehicles[id].ownerNode
                 else t.vehicles[id] == s.vehicles[id]
  {
    var t := Transferred(s, m, |s.order|);
    TransferredIs(s, m, |s.order|);
    forall id | id in s.vehicles
      ensures t.vehicles[id] == Handed(s.vehicles[id], m)
      ensures s.vehicles[id].homeCell.Some? ==>
                && t.vehicles[id].ownerNode.Some?
                && Rendezvous(w, s.vehicles[id].homeCell.value, a - failed, t.vehicles[id].ownerNode.value)
                && (t.vehicles[id].ownerNode != s.vehicles[id].ownerNode <==> s.vehicles[id].ownerNode.value in failed)
    {
      TransferHands(s, m, id);
      if s.vehicles[id].homeCell.Some? {
        RebalanceMovesLittle(w, cells, a, a - failed, s, m, id);
      }
    }
  }
}
