/** Message payloads (protocol.py).  A message carries its topic in its constructor. */
module Protocol {
  import opened Models
  import opened Sharding

  datatype Heartbeat = Heartbeat(node: Node, simTime: real, queueDepth: nat, processed: nat, overloaded: bool)

  datatype ClusterView = ClusterView(
    version: nat,
    simTime: real,
    leader: Node,
    shardMap: ShardMap,
    aliveWorkers: set<Node>,
    downWorkers: set<Node>,
    queueDepths: map<Node, nat>)

  datatype ShardMigration = ShardMigration(
    version: nat,
    simTime: real,
    cell: Cell,
    oldOwner: Option<Node>,
    newOwner: Option<Node>,
    reason: string)

  datatype AssignmentConfirmed = AssignmentConfirmed(
    requestId: int,
    vehicleId: int,
    node: Node,
    simTime: real,
    assignLatency: real)

  datatype Message =
    | HeartbeatMessage(beat: Heartbeat)
    | ClusterState(view: ClusterView)
    | ShardEvent(migration: ShardMigration)
    | Spill(request: Request)
    | ToWorker(node: Node, request: Request)
    | Assignments(confirmed: AssignmentConfirmed)

  /** The messages that take requests to the owners of their cells. */
  function ToOwners(requests: seq<Request>, m: ShardMap): seq<Message> {
    if requests == [] then []
    else
      var owner := m.OwnerAt(requests[0].pickupCell);
      (if owner.Some? then [ToWorker(owner.value, requests[0])] else []) + ToOwners(requests[1..], m)
  }

  /** The requests whose cell nobody owns. */
  function Ownerless(requests: seq<Request>, m: ShardMap): seq<Request> {
    if requests == [] then []
    else (if m.OwnerAt(requests[0].pickupCell).None? then [requests[0]] else []) + Ownerless(requests[1..], m)
  }

  lemma {:induction false} ToOwnersSnoc(requests: seq<Request>, r: Request, m: ShardMap)
    ensures ToOwners(requests + [r], m) == ToOwners(requests, m) + ToOwners([r], m)
    ensures Ownerless(requests + [r], m) == Ownerless(requests, m) + Ownerless([r], m)
  {
    if requests == [] {
      assert requests + [r] == [r];
    } else {
      assert (requests + [r])[1..] == requests[1..] + [r];
      ToOwnersSnoc(requests[1..], r, m);
    }
  }

  lemma ToOwnersOne(r: Request, m: ShardMap)
    ensures ToOwners([r], m) == match m.OwnerAt(r.pickupCell) { case Some(n) => [ToWorker(n, r)] case None => [] }
    ensures Ownerless([r], m) == if m.OwnerAt(r.pickupCell).None? then [r] else []
  {
    assert [r][1..] == [];
  }

  /** Every request goes to the owner of its cell, or is among those without one. */
  lemma {:induction false} NothingForgotten(requests: seq<Request>, m: ShardMap, r: Request)
    requires r in requests
    ensures match m.OwnerAt(r.pickupCell)
            case Some(n) => ToWorker(n, r) in ToOwners(requests, m)
            case None => r in Ownerless(requests, m)
  {
    if requests[0] != r {
      NothingForgotten(requests[1..], m, r);
    }
  }

  /** Nothing else is sent, and nothing else is kept: each request goes one of the two ways, once. */
  lemma {:induction false} SentOrKept(requests: seq<Request>, m: ShardMap)
    ensures |ToOwners(requests, m)| + |Ownerless(requests, m)| == |requests|
    ensures forall msg :: msg in ToOwners(requests, m) ==>
              msg.ToWorker? && msg.request in requests && m.OwnerAt(msg.request.pickupCell) == Some(msg.node)
    ensures forall r :: r in Ownerless(requests, m) ==> r in requests && m.OwnerAt(r.pickupCell).None?
  {
    if requests != [] {
      SentOrKept(requests[1..], m);
    }
  }

  /** The view an actor has after an inbox: the last one sent to it. */
  function LastView(inbox: seq<Message>, view: Option<ClusterView>): Option<ClusterView> {
    if inbox == [] then view
    else if inbox[|inbox| - 1].ClusterState? then Some(inbox[|inbox| - 1].view)
    else LastView(inbox[..|inbox| - 1], view)
  }

  /** The buffer of the gateway after an inbox: every view takes out the requests it knows an owner for. */
  function StillBuffered(inbox: seq<Message>, buffer: seq<Request>): seq<Request> {
    if inbox == [] then buffer
    else
      var left, last := StillBuffered(inbox[..|inbox| - 1], buffer), inbox[|inbox| - 1];
      if last.ClusterState? then Ownerless(left, last.view.shardMap) else left
  }

  /** What the gateway sends out of its buffer on an inbox. */
  function FlushedBy(inbox: seq<Message>, buffer: seq<Request>): seq<Message> {
    if inbox == [] then []
    else
      var front, last := inbox[..|inbox| - 1], inbox[|inbox| - 1];
      FlushedBy(front, buffer)
      + if last.ClusterState? then ToOwners(StillBuffered(front, buffer), last.view.shardMap) else []
  }

  /** A buffered request stays in the buffer or goes to the owner of its cell by one of the views. */
  lemma {:induction false} BufferedIsKept(inbox: seq<Message>, buffer: seq<Request>, r: Request)
    requires r in buffer
    ensures r in StillBuffered(inbox, buffer)
         || exists m :: m in inbox && m.ClusterState? && m.view.shardMap.OwnerAt(r.pickupCell).Some?
                        && ToWorker(m.view.shardMap.OwnerAt(r.pickupCell).value, r) in FlushedBy(inbox, buffer)
  {
    if inbox != [] {
      var front, last := inbox[..|inbox| - 1], inbox[|inbox| - 1];
      BufferedIsKept(front, buffer, r);
      if r in StillBuffered(front, buffer) && last.ClusterState? {
        NothingForgotten(StillBuffered(front, buffer), last.view.shardMap, r);
        assert last in inbox;
      } else if r !in StillBuffered(front, buffer) {
        var m :| m in front && m.ClusterState? && m.view.shardMap.OwnerAt(r.pickupCell).Some?
              && ToWorker(m.view.shardMap.OwnerAt(r.pickupCell).value, r) in FlushedBy(front, buffer);
        assert m in inbox;
      }
    }
  }

  /** Whatever is still in the buffer after a view has no owner by the last one. */
  lemma {:induction false} OwnedAreSent(inbox: seq<Message>, buffer: seq<Request>, view: Option<ClusterView>)
    requires exists m :: m in inbox && m.ClusterState?
    ensures LastView(inbox, view).Some?
    ensures forall r :: r in StillBuffered(inbox, buffer) ==>
              LastView(inbox, view).value.shardMap.OwnerAt(r.pickupCell).None?
  {
    var front, last := inbox[..|inbox| - 1], inbox[|inbox| - 1];
    if last.ClusterState? {
      SentOrKept(StillBuffered(front, buffer), last.view.shardMap);
    } else {
      var m :| m in inbox && m.ClusterState?;
      assert m in front;
      OwnedAreSent(front, buffer, view);
    }
  }
}
