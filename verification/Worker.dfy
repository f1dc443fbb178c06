/** A worker as it runs (worker.py): it deduplicates and queues requests, plans with the engine,
    commits to the store, and sheds load, updating its queue, the requests and the vehicles in place. */
module Workers {
  import opened Geo
  import opened Models
  import opened Insertion
  import opened Dispatch
  import opened Store
  import opened Service
  import opened Sharding
  import opened Protocol
  import opened WorkQueue
  import Membership

  /** What queueing looks at. */
  function Reqs(rs: seq<Request>): (r: seq<Req>)
    ensures |r| == |rs|
  {
    seq(|rs|, i requires 0 <= i < |rs| => Req(rs[i].id, rs[i].pickupCell))
  }

  /** The requests addressed to worker `me` in an inbox, in order. */
  function Arrivals(inbox: seq<Message>, me: Node): seq<Req> {
    if inbox == [] then []
    else
      var front, last := Arrivals(inbox[..|inbox| - 1], me), inbox[|inbox| - 1];
      if last.ToWorker? && last.node == me then front + [Req(last.request.id, last.request.pickupCell)] else front
  }

  function MapOf(view: Option<ClusterView>): Option<ShardMap> {
    if view.Some? then Some(view.value.shardMap) else None
  }

  /** The requests of an inbox that get into the queue of worker `me`: those it has not seen, each once. */
  function Accepted(inbox: seq<Message>, me: Node, seen: set<int>): seq<Request> {
    if inbox == [] then []
    else
      var front, last := Accepted(inbox[..|inbox| - 1], me, seen), inbox[|inbox| - 1];
      if last.ToWorker? && last.node == me && last.request.id !in seen + RequestIds(front) then front + [last.request]
      else front
  }

  function RequestIds(rs: seq<Request>): set<int> {
    set r | r in rs :: r.id
  }

  lemma AcceptedOne(inbox: seq<Message>, msg: Message, me: Node, seen: set<int>)
    ensures var front := Accepted(inbox, me, seen);
            Accepted(inbox + [msg], me, seen) ==
            if msg.ToWorker? && msg.node == me && msg.request.id !in seen + RequestIds(front) then front + [msg.request]
            else front
    ensures msg.ToWorker? ==>
              var front := Accepted(inbox, me, seen);
              RequestIds(front + [msg.request]) == RequestIds(front) + {msg.request.id}
  {
    assert (inbox + [msg])[..|inbox|] == inbox;
  }

  lemma ReqsSnoc(rs: seq<Request>, r: Request)
    ensures Reqs(rs + [r]) == Reqs(rs) + [Req(r.id, r.pickupCell)]
  {
  }

  /** Receiving one more request, when `few` have been let in. */
  lemma ReceiveOne(was: seq<Request>, few: seq<Request>, r: Request, seen: set<int>, decided: set<int>)
    ensures WorkQueue.Receive(Queue(Reqs(was + few), seen + RequestIds(few), decided), Req(r.id, r.pickupCell)) ==
            var more := if r.id in seen + RequestIds(few) then few else few + [r];
            Queue(Reqs(was + more), seen + RequestIds(more), decided)
  {
    if r.id !in seen + RequestIds(few) {
      ReqsSnoc(was + few, r);
      assert was + (few + [r]) == was + few + [r];
      assert RequestIds(few + [r]) == RequestIds(few) + {r.id};
    }
  }

  lemma FirstIs(was: seq<Request>, seen: set<int>, decided: set<int>, me: Node, m: Option<ShardMap>)
    requires was != []
    ensures ProcessFirst(Queue(Reqs(was), seen, decided), me, m) ==
            if FateOf(me, Req(was[0].id, was[0].pickupCell), m).Kept?
            then Queue(Reqs(was[1..]), seen, decided + {was[0].id})
            else Queue(Reqs(was[1..]), seen - {was[0].id}, decided)
  {
    assert Reqs(was)[1..] == Reqs(was[1..]);
  }

  /** What gets into the queue is what deduplication lets in. */
  lemma {:induction false} AcceptedIs(was: seq<Request>, inbox: seq<Message>, me: Node, seen: set<int>, decided: set<int>)
    ensures ReceiveAll(Queue(Reqs(was), seen, decided), Arrivals(inbox, me)) ==
            var more := Accepted(inbox, me, seen); Queue(Reqs(was + more), seen + RequestIds(more), decided)
  {
    if inbox == [] {
      assert was + [] == was;
    } else {
      var front, last := inbox[..|inbox| - 1], inbox[|inbox| - 1];
      AcceptedIs(was, front, me, seen, decided);
      if last.ToWorker? && last.node == me {
        var rs, r := Arrivals(front, me), Req(last.request.id, last.request.pickupCell);
        assert (rs + [r])[..|rs|] == rs;
        ReceiveOne(was, Accepted(front, me, seen), last.request, seen, decided);
      }
    }
  }

  lemma {:induction false} AcceptedArrived(inbox: seq<Message>, me: Node, seen: set<int>)
    ensures forall r :: r in Accepted(inbox, me, seen) ==> exists m :: m in inbox && m.ToWorker? && m.request == r
  {
    if inbox != [] {
      var front, last := inbox[..|inbox| - 1], inbox[|inbox| - 1];
      AcceptedArrived(front, me, seen);
      forall r | r in Accepted(inbox, me, seen) ensures exists m :: m in inbox && m.ToWorker? && m.request == r {
        if r in Accepted(front, me, seen) {
          var m :| m in front && m.ToWorker? && m.request == r;
          assert m in inbox;
        } else {
          assert last in inbox;
        }
      }
    }
  }

  /** The messages that spill requests, the last one first. */
  function Spills(rs: seq<Request>): seq<Message> {
    seq(|rs|, i requires 0 <= i < |rs| => Message.Spill(rs[|rs| - 1 - i]))
  }

  /** Deciding request `r` turns store `s` into `t`: the best plan for the node's own vehicles, which the store accepts,
      is committed; if there is none, nothing happens. */
  ghost predicate DecidesTo(d: Distance, node: Node, r: RequestState, now: real, s: StoreState,
                            plan: Option<Insertion.Plan>, t: StoreState)
  {
    match plan
    case None => Winner(d, r, Candidates(s, node), now, None) && BookedTo(s, node, None, t)
    case Some(p) =>
      && Winner(d, r, Candidates(s, node), now, Some(p))
      && CommitAnswer(s, p.vehicleId, p.expectedVersion, node).ok
      && BookedTo(s, node, Some(p), t)
  }

  lemma DecidedBy(d: Distance, node: Node, r: RequestState, now: real, s: StoreState, plan: Option<Insertion.Plan>,
                  t: StoreState)
    requires Winner(d, r, Candidates(s, node), now, plan) && BookedTo(s, node, plan, t)
    requires plan.Some? ==> CommitAnswer(s, plan.value.vehicleId, plan.value.expectedVersion, node).ok
    ensures DecidesTo(d, node, r, now, s, plan, t)
  {
  }

  /** `v` is a state of request `r`. */
  predicate StateOf(v: RequestState, r: Request) {
    && v.id == r.id && v.origin == r.origin && v.destination == r.destination && v.requestTime == r.requestTime
    && v.partySize == r.partySize && v.maxWait == r.maxWait && v.maxDetourFactor == r.maxDetourFactor
  }

  /** What is said about a decision: an assignment is confirmed. */
  function Confirmations(r: Request, plan: Option<Insertion.Plan>, node: Node, now: real): seq<Message> {
    if plan.None? then []
    else [Assignments(AssignmentConfirmed(r.id, plan.value.vehicleId, node, now, now - r.requestTime))]
  }

  /** Working off one request: it is sent to the node that owns its cell, or decided here. */
  ghost predicate WorksOne(d: Distance, me: Node, m: Option<ShardMap>, now: real, r: Request, s: StoreState, t: StoreState,
                           sent: seq<Message>)
  {
    match Req(r.id, r.pickupCell)
    case Req(id, cell) =>
      if FateOf(me, Req(id, cell), m).Rerouted? then t == s && sent == [ToWorker(FateOf(me, Req(id, cell), m).to, r)]
      else DecidesSo(d, me, now, r, s, t, sent)
  }

  /** The request is decided, in the state it is in, and the decision is made known. */
  ghost predicate DecidesSo(d: Distance, me: Node, now: real, r: Request, s: StoreState, t: StoreState, sent: seq<Message>) {
    exists v, plan :: StateOf(v, r) && DecidesTo(d, me, v, now, s, plan, t) && sent == Confirmations(r, plan, me, now)
  }

  lemma KeptIsDecided(d: Distance, me: Node, m: Option<ShardMap>, now: real, r: Request, v: RequestState, s: StoreState,
                      plan: Option<Insertion.Plan>, t: StoreState)
    requires FateOf(me, Req(r.id, r.pickupCell), m).Kept? && StateOf(v, r) && DecidesTo(d, me, v, now, s, plan, t)
    ensures WorksOne(d, me, m, now, r, s, t, Confirmations(r, plan, me, now))
  {
  }

  lemma ElsewhereIs(me: Node, r: Request, m: Option<ShardMap>)
    ensures match FateOf(me, Req(r.id, r.pickupCell), m)
            case Rerouted(n) => OwnedElsewhere(m, r.pickupCell, me, n)
            case Kept => forall n :: !OwnedElsewhere(m, r.pickupCell, me, n)
  {
    forall n ensures FateOf(me, Req(r.id, r.pickupCell), m) == Rerouted(n) <==> OwnedElsewhere(m, r.pickupCell, me, n) {
      ReroutedIff(me, Req(r.id, r.pickupCell), m, n);
    }
  }

  /** Working off requests one after another. */
  ghost predicate WorksAll(d: Distance, me: Node, m: Option<ShardMap>, now: real, rs: seq<Request>, s: StoreState,
                           t: StoreState, sent: seq<Message>)
    decreases |rs|
  {
    if rs == [] then t == s && sent == []
    else
      var front, last := rs[..|rs| - 1], rs[|rs| - 1];
      exists mid, k: nat ::
        k <= |sent| && WorksAll(d, me, m, now, front, s, mid, sent[..k]) && WorksOne(d, me, m, now, last, mid, t, sent[k..])
  }

  /** Working off `rs` turns store `s` into `t`, and sends these messages. */
  ghost predicate WorkedOff(d: Distance, me: Node, m: Option<ShardMap>, now: real, rs: seq<Request>, s: StoreState,
                            t: StoreState, sent: seq<Message>)
  {
    match s
    case StoreState(vehicles, replica, order, conflicts, notOwner) =>
      WorksAll(d, me, m, now, rs, StoreState(vehicles, replica, order, conflicts, notOwner), t, sent)
  }

  lemma WorksOneMore(d: Distance, me: Node, m: Option<ShardMap>, now: real, rs: seq<Request>, n: nat, s: StoreState,
                     mid: StoreState, sent: seq<Message>, t: StoreState, more: seq<Message>)
    requires n < |rs| && WorkedOff(d, me, m, now, rs[..n], s, mid, sent) && WorksOne(d, me, m, now, rs[n], mid, t, more)
    ensures WorkedOff(d, me, m, now, rs[..n + 1], s, t, sent + more)
  {
    var all, longer := sent + more, rs[..n + 1];
    assert longer[..|longer| - 1] == rs[..n] && all[..|sent|] == sent && all[|sent|..] == more;
  }

  /** What a round sends when `all` are in the queue, and what it leaves: requests are worked off up to the rate, the last
      ones are spilled, the ones in between are left. */
  ghost predicate RoundSends(d: Distance, me: Node, m: Option<ShardMap>, now: real, rate: nat, all: seq<Request>,
                             left: seq<Request>, s: StoreState, t: StoreState, worked: seq<Message>, beat: seq<Message>,
                             sent: seq<Message>)
  {
    var n := Least(rate, |all|);
    && n + |left| <= |all| && left == all[n..n + |left|]
    && WorkedOff(d, me, m, now, all[..n], s, t, worked)
    && sent == worked + (Spills(all[n + |left|..]) + beat)
  }

  lemma SendsAll(d: Distance, me: Node, m: Option<ShardMap>, now: real, rate: nat, all: seq<Request>, n: nat,
                 rest: seq<Request>, p: nat, s: StoreState, t: StoreState, worked: seq<Message>, beat: seq<Message>,
                 more: seq<Message>)
    requires n == Least(rate, |all|) && rest == all[n..] && p <= |rest| && more == Spills(rest[p..]) + beat
    requires WorkedOff(d, me, m, now, all[..n], s, t, worked)
    ensures RoundSends(d, me, m, now, rate, all, rest[..p], s, t, worked, beat, worked + more)
  {
    assert rest[..p] == all[n..n + p];
    assert rest[p..] == all[n + p..];
  }

  lemma NeverRefused(d: Distance, r: RequestState, s: StoreState, node: Node, now: real, plan: Option<Insertion.Plan>)
    requires Keyed(s) && Winner(d, r, Candidates(s, node), now, plan)
    ensures plan.Some? ==> CommitAnswer(s, plan.value.vehicleId, plan.value.expectedVersion, node).ok
  {
    if plan.Some? {
      CommitNeverRefused(d, r, s, node, now, plan.value);
    }
  }

  class Worker {
    const nodeId: Node
    const store: VehicleStore
    const engine: DispatchEngine
    const throughputPerTick: nat
    const queueHighWater: nat
    const heartbeatInterval: real
    var pending: seq<Request>
    var seen: set<int>
    var processed: nat
    var rejected: nat
    var spilled: nat
    var duplicatesIgnored: nat
    var overloaded: bool
    var view: Option<ClusterView>
    var nextBeat: real
    ghost var decided: set<int>

    constructor (nodeId: Node, store: VehicleStore, engine: DispatchEngine, throughputPerTick: nat,
                 queueHighWater: nat, heartbeatInterval: real)
      ensures this.nodeId == nodeId && this.store == store && this.engine == engine
      ensures View() == Queue([], {}, {})
    {
      this.nodeId, this.store, this.engine := nodeId, store, engine;
      this.throughputPerTick, this.queueHighWater, this.heartbeatInterval :=
        throughputPerTick, queueHighWater, heartbeatInterval;
      pending, seen, decided, view, nextBeat := [], {}, {}, None, 0.0;
      processed, rejected, spilled, duplicatesIgnored, overloaded := 0, 0, 0, 0, false;
    }

    ghost function View(): Queue
      reads this
    {
      Queue(Reqs(pending), seen, decided)
    }

    function Map(): Option<ShardMap>
      reads this`view
    {
      MapOf(view)
    }

    /** A vehicle that is given work stops repositioning. */
    method StopRepositioning(vehicleId: int)
      requires store.Valid() && vehicleId in store.vehicles
      modifies (set id | id == vehicleId && id in store.vehicles :: store.vehicles[id])`repositionTarget
      ensures var s := old(store.View());
              store.View() == s.(vehicles := s.vehicles[vehicleId := s.vehicles[vehicleId].(repositionTarget := None)])
    {
      var v := store.vehicles[vehicleId];
      assert store.View().vehicles[vehicleId] == v.View();
      v.repositionTarget := None;
      store.OneVehicleChanged(vehicleId);
    }

    /** Committing a plan. */
    method Book(plan: InsertionPlan) returns (result: CommitResult)
      requires store.Valid() && store.Apart()
      requires plan.vehicleId in store.vehicles && store.OwnRoute(plan.vehicleId, plan.newRoute)
      modifies store`replica, store`blockedConflicts, store`blockedNotOwner
      modifies (set id | id == plan.vehicleId && id in store.vehicles :: store.vehicles[id])`route
      modifies (set id | id == plan.vehicleId && id in store.vehicles :: store.vehicles[id])`version
      modifies (set id | id == plan.vehicleId && id in store.vehicles :: store.vehicles[id])`repositionTarget
      ensures store.Valid() && store.Apart()
      ensures result == CommitAnswer(old(store.View()), plan.vehicleId, plan.expectedVersion, nodeId)
      ensures BookedTo(old(store.View()), nodeId, Some(old(plan.View())), store.View())
      ensures store.AllStops() <= old(store.AllStops()) + (set s | s in plan.newRoute)
    {
      result := Commit(plan);
      if result.ok {
        StopRepositioning(plan.vehicleId);
      }
    }

    method Commit(plan: InsertionPlan) returns (result: CommitResult)
      requires store.Valid() && store.Apart()
      requires plan.vehicleId in store.vehicles && store.OwnRoute(plan.vehicleId, plan.newRoute)
      modifies store`replica, store`blockedConflicts, store`blockedNotOwner
      modifies (set id | id == plan.vehicleId && id in store.vehicles :: store.vehicles[id])`route
      modifies (set id | id == plan.vehicleId && id in store.vehicles :: store.vehicles[id])`version
      ensures store.Valid() && store.Apart()
      ensures result == CommitAnswer(old(store.View()), plan.vehicleId, plan.expectedVersion, nodeId)
      ensures store.View() == Committed(old(store.View()), plan.vehicleId, plan.expectedVersion, old(plan.View()).newRoute,
                                        nodeId)
      ensures store.AllStops() <= old(store.AllStops()) + (set s | s in plan.newRoute)
    {
      result := store.CommitAssignment(plan.vehicleId, plan.expectedVersion, plan.newRoute, nodeId);
      if result.ok {
        store.ApartWithOwn(plan.vehicleId);
      }
    }

    /** The vehicles are the store's own. */
    ghost predicate Stored(vehicles: seq<Vehicle>)
      reads store`vehicles
    {
      forall i :: 0 <= i < |vehicles| ==> vehicles[i].id in store.vehicles && store.vehicles[vehicles[i].id] == vehicles[i]
    }

    /** The vehicles that the worker matches against. */
    method OwnVehicles() returns (candidates: seq<Vehicle>)
      requires store.Valid()
      ensures VehicleViews(candidates) == Candidates(store.View(), nodeId) && Stored(candidates)
    {
      candidates := store.VehiclesOwnedBy(nodeId);
      assert VehicleViews(candidates) == Candidates(store.View(), nodeId);
    }

    /** Asking the engine about some vehicles of the store. */
    method Consult(req: Request, candidates: seq<Vehicle>, now: real) returns (best: Option<InsertionPlan>)
      requires Stored(candidates) && store.Apart()
      modifies store.AllStops()`eta
      ensures store.View() == old(store.View()) && store.AllStops() == old(store.AllStops())
      ensures Winner(engine.d, req.View(), old(VehicleViews(candidates)), now, PlanView(best))
      ensures best.Some? ==> best.value.vehicleId in store.vehicles && TheirOwn(best.value)
    {
      ghost var at;
      best, at := engine.Dispatch(req, candidates, now);
      if best.Some? {
        ExtendedDistinct(candidates[at].route, best.value);
      }
    }

    /** Asking the engine, with the worker's own vehicles as candidates. */
    method Plan(req: Request, now: real) returns (best: Option<InsertionPlan>)
      requires store.Valid() && store.Apart()
      modifies store.AllStops()`eta
      ensures store.View() == old(store.View()) && store.AllStops() == old(store.AllStops())
      ensures Winner(engine.d, req.View(), Candidates(store.View(), nodeId), now, PlanView(best))
      ensures best.Some? ==> best.value.vehicleId in store.vehicles && TheirOwn(best.value)
      ensures best.Some? ==> CommitAnswer(store.View(), best.value.vehicleId, best.value.expectedVersion, nodeId).ok
    {
      ghost var s := store.View();
      assert Keyed(s);
      var candidates := OwnVehicles();
      best := Consult(req, candidates, now);
      NeverRefused(engine.d, req.View(), s, nodeId, now, PlanView(best));
    }

    /** The plan's route is made of the vehicle's own stops and of new ones, no stop twice. */
    twostate predicate TheirOwn(new plan: InsertionPlan)
      requires plan.vehicleId in store.vehicles
      reads store`vehicles, store.vehicles.Values`route
    {
      && store.OwnRoute(plan.vehicleId, plan.newRoute)
      && forall s :: s in plan.newRoute ==> s in store.AllStops() || fresh(s)
    }

    /** Planning and committing, with nothing in between. */
    method PlanAndBook(req: Request, now: real)
      returns (best: Option<InsertionPlan>, result: CommitResult, ghost plan: Option<Insertion.Plan>)
      requires store.Valid() && store.Apart()
      modifies store`replica, store`blockedConflicts, store`blockedNotOwner
      modifies store.vehicles.Values`route, store.vehicles.Values`version, store.vehicles.Values`repositionTarget
      modifies store.AllStops()`eta
      ensures store.Valid() && store.Apart()
      ensures DecidesTo(engine.d, nodeId, req.View(), now, old(store.View()), plan, store.View())
      ensures (plan.Some? <==> best.Some?) && (plan.Some? ==> best.value.vehicleId == plan.value.vehicleId && result.ok)
      ensures store.OnlyNewStops()
    {
      ghost var s, stops := store.View(), store.AllStops();
      best := Plan(req, now);
      plan := PlanView(best);
      if best.None? {
        DecidedBy(engine.d, nodeId, req.View(), now, s, plan, store.View());
        return best, CommitResult(false, "", -1), plan;
      }
      result := BookBest(req, best.value, now);
      assert store.OnlyNewStops() by {
        forall x | x in store.AllStops() ensures x in stops || fresh(x) {
          assert x in stops || x in best.value.newRoute;
        }
      }
    }

    /** Committing the best plan, which the store accepts. */
    method BookBest(req: Request, best: InsertionPlan, now: real) returns (result: CommitResult)
      requires store.Valid() && store.Apart()
      requires best.vehicleId in store.vehicles && store.OwnRoute(best.vehicleId, best.newRoute)
      requires Winner(engine.d, req.View(), Candidates(store.View(), nodeId), now, Some(best.View()))
      requires CommitAnswer(store.View(), best.vehicleId, best.expectedVersion, nodeId).ok
      modifies store`replica, store`blockedConflicts, store`blockedNotOwner
      modifies store.vehicles.Values`route, store.vehicles.Values`version, store.vehicles.Values`repositionTarget
      ensures store.Valid() && store.Apart() && result.ok
      ensures DecidesTo(engine.d, nodeId, req.View(), now, old(store.View()), Some(old(best.View())), store.View())
      ensures store.AllStops() <= old(store.AllStops()) + (set s | s in best.newRoute)
    {
      ghost var s, plan := store.View(), best.View();
      result := Book(best);
      DecidedBy(engine.d, nodeId, req.View(), now, s, Some(plan), store.View());
    }

    /** `_try_dispatch`: a plan for one of the worker's own vehicles is committed, or the request is
        rejected.  Nothing happens in between, so the commit goes through and the request is not queued again. */
    method TryDispatch(req: Request, now: real) returns (sent: seq<Message>, ghost plan: Option<Insertion.Plan>)
      requires store.Valid() && store.Apart()
      modifies this`pending, this`seen, this`decided, this`processed, this`rejected
      modifies req`status, req`assignedVehicle, req`assignedAt
      modifies store`replica, store`blockedConflicts, store`blockedNotOwner
      modifies store.vehicles.Values`route, store.vehicles.Values`version, store.vehicles.Values`repositionTarget
      modifies store.AllStops()`eta
      ensures store.Valid() && store.Apart()
      ensures DecidesTo(engine.d, nodeId, old(req.View()), now, old(store.View()), plan, store.View())
      ensures store.OnlyNewStops()
      ensures req.View() == if plan.None? then old(req.View()).(status := Rejected)
                            else Assignment(old(req.View()), plan.value.vehicleId, now)
      ensures if plan.None? then req.status == Rejected && processed == old(processed) && rejected == old(rejected) + 1
              else && req.status == Assigned && req.assignedVehicle == Some(plan.value.vehicleId)
                   && req.assignedAt == Some(now) && processed == old(processed) + 1 && rejected == old(rejected)
      ensures sent == Confirmations(req, plan, nodeId, now)
      ensures pending == old(pending) && seen == old(seen) && decided == old(decided) + {req.id}
    {
      var best, result;
      best, result, plan := PlanAndBook(req, now);
      ghost var s := store.View();
      sent := Answer(req, best, result, now);
      assert store.View() == s;
    }

    /** What a worker notes down about a request once the store has answered. */
    method Answer(req: Request, best: Option<InsertionPlan>, result: CommitResult, now: real) returns (sent: seq<Message>)
      modifies this`pending, this`seen, this`decided, this`processed, this`rejected
      modifies req`status, req`assignedVehicle, req`assignedAt
      ensures best.None? ==> req.View() == old(req.View()).(status := Rejected) && sent == []
      ensures best.Some? && result.ok ==>
                && req.View() == Assignment(old(req.View()), best.value.vehicleId, now)
                && sent == [Assignments(AssignmentConfirmed(req.id, best.value.vehicleId, nodeId, now,
                                                            now - req.requestTime))]
      ensures processed == old(processed) + (if best.Some? && result.ok then 1 else 0)
      ensures rejected == old(rejected) + if best.None? then 1 else 0
      ensures best.None? || result.ok ==>
                pending == old(pending) && seen == old(seen) && decided == old(decided) + {req.id}
      ensures best.Some? && !result.ok ==>
                && req.View() == old(req.View())
                && pending == old(pending) + [req] && seen == old(seen) - {req.id} && decided == old(decided)
      ensures store.View() == old(store.View())
    {
      if best.None? {
        req.status := Rejected;
        rejected := rejected + 1;
        decided := decided + {req.id};
        return [];
      }
      if !result.ok {
        pending := pending + [req];
        seen := seen - {req.id};
        return [];
      }
      req.status, req.assignedVehicle, req.assignedAt := Assigned, Some(best.value.vehicleId), Some(now);
      processed := processed + 1;
      decided := decided + {req.id};
      sent := [Assignments(AssignmentConfirmed(req.id, best.value.vehicleId, nodeId, now, now - req.requestTime))];
    }

    /** `_ingest`. */
    method Ingest(msg: Message)
      modifies this`view, this`pending, this`seen, this`duplicatesIgnored
      ensures view == if msg.ClusterState? then Some(msg.view) else old(view)
      ensures View() == if msg.ToWorker? && msg.node == nodeId
                        then Receive(old(View()), Req(msg.request.id, msg.request.pickupCell)) else old(View())
      ensures pending == old(pending)
                + if msg.ToWorker? && msg.node == nodeId && msg.request.id !in old(seen) then [msg.request] else []
      ensures duplicatesIgnored == old(duplicatesIgnored)
                + if msg.ToWorker? && msg.node == nodeId && msg.request.id in old(seen) then 1 else 0
    {
      if msg.ClusterState? {
        view := Some(msg.view);
      } else if msg.ToWorker? && msg.node == nodeId {
        if msg.request.id in seen {
          duplicatesIgnored := duplicatesIgnored + 1;
          return;
        }
        seen := seen + {msg.request.id};
        pending := pending + [msg.request];
        assert Reqs(pending) == old(Reqs(pending)) + [Req(msg.request.id, msg.request.pickupCell)];
      }
    }

    method IngestAll(inbox: seq<Message>)
      modifies this`view, this`pending, this`seen, this`duplicatesIgnored
      ensures view == LastView(inbox, old(view))
      ensures View() == ReceiveAll(old(View()), Arrivals(inbox, nodeId))
      ensures pending == old(pending) + Accepted(inbox, nodeId, old(seen))
      ensures store.View() == old(store.View())
    {
      ghost var v, was, saw := view, pending, seen;
      for k := 0 to |inbox|
        invariant view == LastView(inbox[..k], v)
        invariant pending == was + Accepted(inbox[..k], nodeId, saw)
        invariant seen == saw + RequestIds(Accepted(inbox[..k], nodeId, saw))
      {
        assert inbox[..k + 1][..k] == inbox[..k];
        assert inbox[..k + 1] == inbox[..k] + [inbox[k]];
        Ingest(inbox[k]);
        AcceptedOne(inbox[..k], inbox[k], nodeId, saw);
      }
      assert inbox[..|inbox|] == inbox;
      AcceptedIs(was, inbox, nodeId, saw, decided);
    }

    /** `_reroute`: a request that another node owns goes there. */
    method Reroute(req: Request, owner: Node) returns (sent: seq<Message>)
      modifies this`seen
      ensures seen == old(seen) - {req.id} && sent == [ToWorker(owner, req)]
    {
      seen := seen - {req.id};
      sent := [ToWorker(owner, req)];
    }

    /** Working off the first request of the queue. */
    method ProcessOne(now: real) returns (sent: seq<Message>)
      requires pending != [] && store.Valid() && store.Apart()
      modifies this`pending, this`seen, this`decided, this`processed, this`rejected
      modifies (set r | r in pending)`status, (set r | r in pending)`assignedVehicle, (set r | r in pending)`assignedAt
      modifies store`replica, store`blockedConflicts, store`blockedNotOwner
      modifies store.vehicles.Values`route, store.vehicles.Values`version, store.vehicles.Values`repositionTarget
      modifies store.AllStops()`eta
      ensures store.Valid() && store.Apart()
      ensures store.OnlyNewStops()
      ensures View() == ProcessFirst(old(View()), nodeId, Map()) && pending == old(pending)[1..]
      ensures WorksOne(engine.d, nodeId, Map(), now, old(pending[0]), old(store.View()), store.View(), sent)
      ensures forall n ::
                view.Some? && OwnedElsewhere(Some(view.value.shardMap), old(pending[0]).pickupCell, nodeId, n) ==>
                && sent == [ToWorker(n, old(pending[0]))] && store.View() == old(store.View())
                && seen == old(seen) - {old(pending[0]).id} && decided == old(decided)
      ensures (view.None?
               || forall n :: !OwnedElsewhere(Some(view.value.shardMap), old(pending[0]).pickupCell, nodeId, n)) ==>
                && DecidesSo(engine.d, nodeId, now, old(pending[0]), old(store.View()), store.View(), sent)
                && seen == old(seen) && decided == old(decided) + {old(pending[0]).id}
    {
      FirstIs(pending, seen, decided, nodeId, Map());
      var req := pending[0];
      pending := pending[1..];
      sent := Handle(req, now);
      ElsewhereIs(nodeId, req, Map());
    }

    /** A request that has been taken from the queue. */
    method Handle(req: Request, now: real) returns (sent: seq<Message>)
      requires store.Valid() && store.Apart()
      modifies this`pending, this`seen, this`decided, this`processed, this`rejected
      modifies req`status, req`assignedVehicle, req`assignedAt
      modifies store`replica, store`blockedConflicts, store`blockedNotOwner
      modifies store.vehicles.Values`route, store.vehicles.Values`version, store.vehicles.Values`repositionTarget
      modifies store.AllStops()`eta
      ensures store.Valid() && store.Apart() && store.OnlyNewStops()
      ensures WorksOne(engine.d, nodeId, Map(), now, req, old(store.View()), store.View(), sent)
      ensures pending == old(pending)
      ensures if FateOf(nodeId, Req(req.id, req.pickupCell), Map()).Kept?
              then seen == old(seen) && decided == old(decided) + {req.id}
              else seen == old(seen) - {req.id} && decided == old(decided)
    {
      var owner := if view.Some? then view.value.shardMap.OwnerAt(req.pickupCell) else None;
      if owner.Some? && owner.value != nodeId {
        sent := Reroute(req, owner.value);
      } else {
        sent := Decide(req, now);
      }
    }

    /** A request for a cell that is not known to be another node's. */
    method Decide(req: Request, now: real) returns (sent: seq<Message>)
      requires store.Valid() && store.Apart() && FateOf(nodeId, Req(req.id, req.pickupCell), Map()).Kept?
      modifies this`pending, this`seen, this`decided, this`processed, this`rejected
      modifies req`status, req`assignedVehicle, req`assignedAt
      modifies store`replica, store`blockedConflicts, store`blockedNotOwner
      modifies store.vehicles.Values`route, store.vehicles.Values`version, store.vehicles.Values`repositionTarget
      modifies store.AllStops()`eta
      ensures store.Valid() && store.Apart() && store.OnlyNewStops()
      ensures WorksOne(engine.d, nodeId, Map(), now, req, old(store.View()), store.View(), sent)
      ensures pending == old(pending) && seen == old(seen) && decided == old(decided) + {req.id}
    {
      ghost var v, s := req.View(), store.View();
      ghost var plan;
      sent, plan := TryDispatch(req, now);
      KeptIsDecided(engine.d, nodeId, Map(), now, req, v, s, plan, store.View());
    }

    /** The same in the middle of a batch: `n` requests of `was` have been worked off, with the messages `before`. */
    method ProcessNext(now: real, ghost was: seq<Request>, ghost n: nat, ghost s: StoreState, ghost before: seq<Message>)
      returns (more: seq<Message>)
      requires pending != [] && store.Valid() && store.Apart() && n <= |was| && pending == was[n..]
      requires WorkedOff(engine.d, nodeId, Map(), now, was[..n], s, store.View(), before)
      modifies this`pending, this`seen, this`decided, this`processed, this`rejected
      modifies (set r | r in pending)`status, (set r | r in pending)`assignedVehicle, (set r | r in pending)`assignedAt
      modifies store`replica, store`blockedConflicts, store`blockedNotOwner
      modifies store.vehicles.Values`route, store.vehicles.Values`version, store.vehicles.Values`repositionTarget
      modifies store.AllStops()`eta
      ensures store.Valid() && store.Apart() && store.OnlyNewStops()
      ensures View() == ProcessFirst(old(View()), nodeId, Map()) && n < |was| && pending == was[n + 1..]
      ensures WorkedOff(engine.d, nodeId, Map(), now, was[..n + 1], s, store.View(), before + more)
    {
      ghost var mid := store.View();
      more := ProcessOne(now);
      WorksOneMore(engine.d, nodeId, Map(), now, was, n, s, mid, before, store.View(), more);
    }

    /** `_process_batch`: first come, first served, up to the throughput of a tick. */
    method ProcessBatch(now: real) returns (sent: seq<Message>, ghost n: nat)
      requires store.Valid() && store.Apart()
      modifies this`pending, this`seen, this`decided, this`processed, this`rejected
      modifies (set r | r in pending)`status, (set r | r in pending)`assignedVehicle, (set r | r in pending)`assignedAt
      modifies store`replica, store`blockedConflicts, store`blockedNotOwner
      modifies store.vehicles.Values`route, store.vehicles.Values`version, store.vehicles.Values`repositionTarget
      modifies store.AllStops()`eta
      ensures store.Valid() && store.Apart()
      ensures View() == Batch(old(View()), nodeId, Map(), throughputPerTick)
      ensures n == Least(throughputPerTick, |old(pending)|) && pending == old(pending)[n..]
      ensures WorkedOff(engine.d, nodeId, Map(), now, old(pending)[..n], old(store.View()), store.View(), sent)
    {
      sent, n := [], 0;
      ghost var q, was, s := View(), pending, store.View();
      var budget: nat := throughputPerTick;
      while budget > 0 && pending != []
        invariant store.Valid() && store.Apart() && store.OnlyNewStops()
        invariant n + budget == throughputPerTick && n <= |was| && pending == was[n..]
        invariant Batch(View(), nodeId, Map(), budget) == Batch(q, nodeId, Map(), throughputPerTick)
        invariant WorkedOff(engine.d, nodeId, Map(), now, was[..n], s, store.View(), sent)
        decreases budget
      {
        var more := ProcessNext(now, was, n, s, sent);
        sent := sent + more;
        budget, n := budget - 1, n + 1;
      }
    }

    /** `_maybe_spill`: the back of the queue goes to the coordinators. */
    method MaybeSpill() returns (sent: seq<Message>)
      modifies this`overloaded, this`pending, this`seen, this`spilled
      ensures View() == SpillBack(old(View()), queueHighWater)
      ensures overloaded <==> |old(pending)| > queueHighWater
      ensures |pending| == Least(queueHighWater, |old(pending)|) && pending == old(pending)[..|pending|]
      ensures |sent| == |old(pending)| - |pending|
      ensures forall i :: 0 <= i < |sent| ==> sent[i] == Message.Spill(old(pending)[|old(pending)| - 1 - i])
      ensures sent == Spills(old(pending)[|pending|..]) && spilled == old(spilled) + |sent|
    {
      sent := [];
      ghost var q, was := View(), pending;
      overloaded := |pending| > queueHighWater;
      while |pending| > queueHighWater
        invariant SpillBack(View(), queueHighWater) == SpillBack(q, queueHighWater)
        invariant overloaded <==> |was| > queueHighWater
        invariant Least(queueHighWater, |was|) <= |pending| <= |was| && pending == was[..|pending|]
        invariant |sent| == |was| - |pending| && spilled == old(spilled) + |sent|
        invariant forall i :: 0 <= i < |sent| ==> sent[i] == Message.Spill(was[|was| - 1 - i])
      {
        ghost var before := View();
        var n := |pending| - 1;
        var req := pending[n];
        pending := pending[..n];
        seen := seen - {req.id};
        spilled := spilled + 1;
        sent := sent + [Message.Spill(req)];
        assert Reqs(pending) == before.pending[..n];
      }
    }

    /** The heartbeat: the worker's load as it is now. */
    function BeatNow(now: real): Message
      reads this`pending, this`processed, this`overloaded
    {
      HeartbeatMessage(Heartbeat(nodeId, now, |pending|, processed, overloaded))
    }

    /** `_send_heartbeat`, when it is time. */
    method MaybeBeat(now: real) returns (sent: seq<Message>)
      modifies this`nextBeat
      ensures if now >= old(nextBeat) then
                && sent == [HeartbeatMessage(Heartbeat(nodeId, now, |pending|, processed, overloaded))]
                && nextBeat == now + heartbeatInterval
              else sent == [] && nextBeat == old(nextBeat)
      ensures sent == if Membership.BeatDue(now, old(nextBeat)) then [BeatNow(now)] else []
      ensures nextBeat == Membership.BeatAfter(now, old(nextBeat), heartbeatInterval)
    {
      sent := [];
      if now >= nextBeat {
        sent := [HeartbeatMessage(Heartbeat(nodeId, now, |pending|, processed, overloaded))];
        nextBeat := now + heartbeatInterval;
      }
    }

    /** One round of the loop of `run`, but for repositioning idle vehicles.  `worked` are the messages about the
        requests worked off. */
    method Round(inbox: seq<Message>, now: real) returns (sent: seq<Message>, ghost worked: seq<Message>)
      requires store.Valid() && store.Apart() && QueueOk(View())
      modifies this
      modifies (set r | r in pending)`status, (set r | r in pending)`assignedVehicle, (set r | r in pending)`assignedAt
      modifies (set m | m in inbox && m.ToWorker? :: m.request)`status
      modifies (set m | m in inbox && m.ToWorker? :: m.request)`assignedVehicle
      modifies (set m | m in inbox && m.ToWorker? :: m.request)`assignedAt
      modifies store`replica, store`blockedConflicts, store`blockedNotOwner
      modifies store.vehicles.Values`route, store.vehicles.Values`version, store.vehicles.Values`repositionTarget
      modifies store.AllStops()`eta
      ensures store.Valid() && store.Apart()
      ensures view == LastView(inbox, old(view))
      ensures View() == WorkQueue.Round(old(View()), nodeId, Input(Arrivals(inbox, nodeId), Map()),
                                        throughputPerTick, queueHighWater)
      ensures QueueOk(View()) && |pending| <= queueHighWater && old(decided) <= decided
      ensures RoundSends(engine.d, nodeId, Map(), now, throughputPerTick, old(pending) + Accepted(inbox, nodeId, old(seen)),
                         pending, old(store.View()), store.View(), worked,
                         if Membership.BeatDue(now, old(nextBeat)) then [BeatNow(now)] else [], sent)
      ensures nextBeat == Membership.BeatAfter(now, old(nextBeat), heartbeatInterval)
    {
      RoundOk(View(), nodeId, Input(Arrivals(inbox, nodeId), MapOf(LastView(inbox, view))),
              throughputPerTick, queueHighWater);
      AcceptedArrived(inbox, nodeId, seen);
      IngestAll(inbox);
      sent, worked := WorkAndShed(now);
    }

    /** A round once everything that has arrived is in the queue. */
    method WorkAndShed(now: real) returns (sent: seq<Message>, ghost worked: seq<Message>)
      requires store.Valid() && store.Apart()
      modifies this`pending, this`seen, this`decided, this`processed, this`rejected, this`overloaded, this`spilled
      modifies this`nextBeat
      modifies (set r | r in pending)`status, (set r | r in pending)`assignedVehicle, (set r | r in pending)`assignedAt
      modifies store`replica, store`blockedConflicts, store`blockedNotOwner
      modifies store.vehicles.Values`route, store.vehicles.Values`version, store.vehicles.Values`repositionTarget
      modifies store.AllStops()`eta
      ensures store.Valid() && store.Apart()
      ensures View() == SpillBack(Batch(old(View()), nodeId, Map(), throughputPerTick), queueHighWater)
      ensures RoundSends(engine.d, nodeId, Map(), now, throughputPerTick, old(pending), pending, old(store.View()),
                         store.View(), worked,
                         if Membership.BeatDue(now, old(nextBeat)) then [BeatNow(now)] else [], sent)
      ensures nextBeat == Membership.BeatAfter(now, old(nextBeat), heartbeatInterval)
    {
      ghost var all, due, s := pending, Membership.BeatDue(now, nextBeat), store.View();
      ghost var n;
      sent, n := ProcessBatch(now);
      worked := sent;
      ghost var left, t := pending, store.View();
      var more := SpillAndBeat(now);
      sent := sent + more;
      SendsAll(engine.d, nodeId, Map(), now, throughputPerTick, all, n, left, |pending|, s, t, worked,
               if due then [BeatNow(now)] else [], more);
    }

    /** The end of a round: what is too much is spilled, and the heartbeat sent. */
    method SpillAndBeat(now: real) returns (sent: seq<Message>)
      modifies this`overloaded, this`pending, this`seen, this`spilled, this`nextBeat
      ensures store.View() == old(store.View())
      ensures View() == SpillBack(old(View()), queueHighWater)
      ensures |pending| <= |old(pending)| && pending == old(pending)[..|pending|]
      ensures sent == Spills(old(pending)[|pending|..])
                      + if Membership.BeatDue(now, old(nextBeat)) then [BeatNow(now)] else []
      ensures nextBeat == Membership.BeatAfter(now, old(nextBeat), heartbeatInterval)
    {
      sent := MaybeSpill();
      var beat := MaybeBeat(now);
      sent := sent + beat;
    }
  }

  /** The vehicle's own stops and two new ones: no stop twice. */
  twostate lemma ExtendedDistinct(route: seq<RouteStop>, new plan: InsertionPlan)
    requires Distinct(route) && ExtendsBy(plan, route)
    ensures Distinct(plan.newRoute)
    ensures forall s :: s in plan.newRoute ==> s in route || fresh(s)
  {
  }
}
