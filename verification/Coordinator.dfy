/** The coordinator as it runs (coordinator.py): membership sets, the shard map, the spill buffer
    and the lease, updated in place, proved against `Lease`, `Membership` and `Rebalance`. */
module Coordination {
  import opened Models
  import opened Sharding
  import opened Store
  import opened Lease
  import opened Membership
  import opened Rebalance
  import opened Protocol
  import opened Spilling

  /** The senders of the heartbeats of an inbox, in order. */
  function Beats(inbox: seq<Message>): seq<Node> {
    if inbox == [] then []
    else
      var front, last := Beats(inbox[..|inbox| - 1]), inbox[|inbox| - 1];
      if last.HeartbeatMessage? then front + [last.beat.node] else front
  }

  /** The requests spilled in an inbox, in order. */
  function Spilled(inbox: seq<Message>): seq<Request> {
    if inbox == [] then []
    else
      var front, last := Spilled(inbox[..|inbox| - 1]), inbox[|inbox| - 1];
      if last.Spill? then front + [last.request] else front
  }

  lemma InboxOneMore(inbox: seq<Message>, msg: Message)
    ensures Beats(inbox + [msg]) == if msg.HeartbeatMessage? then Beats(inbox) + [msg.beat.node] else Beats(inbox)
    ensures Spilled(inbox + [msg]) == Spilled(inbox) + if msg.Spill? then [msg.request] else []
  {
    assert (inbox + [msg])[..|inbox|] == inbox;
  }

  // ---------------------------------------------------------------- what a wake-up does

  /** What a coordinator controls. */
  datatype Control = Control(health: Health, shardMap: ShardMap, store: StoreState)

  /** What it goes by. */
  datatype Rules = Rules(weight: Weight, cells: seq<Cell>, timeout: real)

  /** A migration of cell `c` is among the messages. */
  ghost predicate Announced(sent: seq<Message>, c: Cell) {
    exists m :: m in sent && m.ShardEvent? && m.migration.cell == c
  }

  /** A migration message tells the old owner of its cell, and the new one by the new map. */
  predicate TellsOwners(m: Message, before: ShardMap, after: ShardMap) {
    m.ShardEvent? ==>
      var c := m.migration.cell;
      && m.migration.oldOwner == (if c in before.cellOwner then Some(before.cellOwner[c]) else None)
      && m.migration.newOwner == (if c in after.cellOwner then Some(after.cellOwner[c]) else None)
      && m.migration.version == after.version
  }

  /** The messages announce exactly the cells whose owner differs, with both owners. */
  ghost predicate Announces(sent: seq<Message>, before: ShardMap, after: ShardMap) {
    && (forall c :: Announced(sent, c) <==> after.Owner(c) != before.Owner(c))
    && (forall m :: m in sent ==> TellsOwners(m, before, after))
  }

  /** The last message is the cluster view with this map. */
  ghost predicate Publishes(sent: seq<Message>, m: ShardMap) {
    sent != [] && sent[|sent| - 1].ClusterState? && sent[|sent| - 1].view.shardMap == m
  }

  /** A rebalance from `a` to `b`, if it is called for and anybody is alive, and the messages about it; else
      nothing changes and nothing is sent. */
  ghost predicate RebalancedTo(rules: Rules, act: bool, alive: set<Node>, a: Control, b: Control, sent: seq<Message>) {
    && Rebalances(rules.weight, rules.cells, act, alive, a.shardMap, b.shardMap, a.store, b.store)
    && if act && alive != {} then Announces(sent, a.shardMap, b.shardMap) && Publishes(sent, b.shardMap) else sent == []
  }

  /** Handling one heartbeat: a leader rebalances when a worker joins or comes back. */
  ghost predicate HearsTo(rules: Rules, leads: bool, a: Control, node: Node, now: real, b: Control, sent: seq<Message>) {
    && b.health == Hear(a.health, node, now)
    && RebalancedTo(rules, leads && Joins(a.health, node), b.health.alive, a, b, sent)
  }

  /** Handling heartbeats one after another. */
  ghost predicate HearsAllTo(rules: Rules, leads: bool, a: Control, beats: seq<Node>, now: real, b: Control,
                             sent: seq<Message>)
    decreases |beats|
  {
    if beats == [] then b == a && sent == []
    else
      var front, node := beats[..|beats| - 1], beats[|beats| - 1];
      exists mid, k: nat ::
        && k <= |sent|
        && HearsAllTo(rules, leads, a, front, now, mid, sent[..k])
        && HearsTo(rules, leads, mid, node, now, b, sent[k..])
  }

  /** Looking for failures. */
  ghost predicate DeclaresTo(rules: Rules, a: Control, now: real, b: Control, sent: seq<Message>) {
    && b.health == Declare(a.health, now, rules.timeout)
    && RebalancedTo(rules, Overdue(a.health, now, rules.timeout) != {}, b.health.alive, a, b, sent)
  }

  lemma RebalancedBy(rules: Rules, alive: set<Node>, a: Control, b: Control, sent: seq<Message>)
    requires alive != {} && Assigns(rules.weight, rules.cells, alive, b.shardMap)
    requires b.shardMap.version == a.shardMap.version + 1 && TransferredTo(a.store, b.shardMap, b.store)
    requires Announces(sent, a.shardMap, b.shardMap) && Publishes(sent, b.shardMap)
    ensures RebalancedTo(rules, true, alive, a, b, sent)
  {
  }

  /** What is noted down before a rebalance does not matter to it, if the map and the vehicles are not touched. */
  lemma RebalancedFrom(rules: Rules, act: bool, alive: set<Node>, a: Control, mid: Control, b: Control, sent: seq<Message>)
    requires mid.shardMap == a.shardMap && mid.store == a.store
    requires if act then RebalancedTo(rules, true, alive, mid, b, sent) else b == mid && sent == []
    ensures RebalancedTo(rules, act, alive, a, b, sent)
  {
  }

  lemma HearsOneMore(rules: Rules, leads: bool, a: Control, beats: seq<Node>, now: real, mid: Control, sent: seq<Message>,
                     node: Node, b: Control, more: seq<Message>)
    requires HearsAllTo(rules, leads, a, beats, now, mid, sent) && HearsTo(rules, leads, mid, node, now, b, more)
    ensures HearsAllTo(rules, leads, a, beats + [node], now, b, sent + more)
  {
    var all, longer := sent + more, beats + [node];
    assert longer[..|longer| - 1] == beats && all[..|sent|] == sent && all[|sent|..] == more;
  }

  /** A coordinator that does not lead changes no map and no vehicle, and sends nothing. */
  lemma {:induction false} FollowerOnlyListens(rules: Rules, a: Control, beats: seq<Node>, now: real, b: Control,
                                               sent: seq<Message>)
    requires HearsAllTo(rules, false, a, beats, now, b, sent)
    ensures b == Control(HearAll(a.health, beats, now), a.shardMap, a.store) && sent == []
    decreases |beats|
  {
    if beats != [] {
      var mid, k: nat :| k <= |sent|
        && HearsAllTo(rules, false, a, beats[..|beats| - 1], now, mid, sent[..k])
        && HearsTo(rules, false, mid, beats[|beats| - 1], now, b, sent[k..]);
      FollowerOnlyListens(rules, a, beats[..|beats| - 1], now, mid, sent[..k]);
      assert sent == sent[..k] + sent[k..];
    }
  }

  /** The map of a leader stays the one for the workers it takes to be alive. */
  lemma {:induction false} LeaderKeepsMap(rules: Rules, a: Control, beats: seq<Node>, now: real, b: Control,
                                          sent: seq<Message>)
    requires HearsAllTo(rules, true, a, beats, now, b, sent)
    requires Assigns(rules.weight, rules.cells, a.health.alive, a.shardMap)
    ensures b.health == HearAll(a.health, beats, now)
    ensures Assigns(rules.weight, rules.cells, b.health.alive, b.shardMap)
    decreases |beats|
  {
    if beats != [] {
      var mid, k: nat :| k <= |sent|
        && HearsAllTo(rules, true, a, beats[..|beats| - 1], now, mid, sent[..k])
        && HearsTo(rules, true, mid, beats[|beats| - 1], now, b, sent[k..]);
      LeaderKeepsMap(rules, a, beats[..|beats| - 1], now, mid, sent[..k]);
      var node := beats[|beats| - 1];
      if !Joins(mid.health, node) {
        assert mid.health.alive + {node} == mid.health.alive;
      }
    }
  }

  /** One wake-up: what has arrived is handled under the old flag, then the lease decides, and then the leader does
      its work.  `heard` is the state in between, after the first `k` messages. */
  ghost predicate WakesTo(rules: Rules, led: bool, leads: bool, a: Control, beats: seq<Node>, now: real, heard: Control,
                          b: Control, first: seq<Message>, later: seq<Message>)
  {
    && HearsAllTo(rules, led, a, beats, now, heard, first)
    && if leads then DeclaresTo(rules, heard, now, b, later) else b == heard && later == []
  }

  /** Over all runs of the election: whatever part of a wake-up changes the shard map or a vehicle, or announces
      anything, the coordinator holds an unexpired lease while it does. */
  lemma RebalancesAreByTheHolder(e: Election, c: Node, tick: real, ttl: real, rules: Rules, a: Control, beats: seq<Node>,
                                 heard: Control, b: Control, first: seq<Message>, later: seq<Message>)
    requires 0.0 < tick < ttl && Lease.Reachable(e, tick, ttl) && Lease.Enabled(e, Tick(c))
    requires WakesTo(rules, e.coords[c].isLeader, Granted(e.lease, c, e.now), a, beats, e.now, heard, b, first, later)
    ensures heard.shardMap != a.shardMap || heard.store != a.store || first != [] ==> IsLeader(e.lease, c, e.now)
    ensures b.shardMap != heard.shardMap || b.store != heard.store || later != [] ==>
              IsLeader(Lease.After(e, Tick(c), tick, ttl).lease, c, e.now)
  {
    if e.coords[c].isLeader {
      LeaderIsCurrent(e, c, tick, ttl);
    } else {
      FollowerOnlyListens(rules, a, beats, e.now, heard, first);
    }
  }

  /** A leader that stays leader has, after every wake-up, the map for the workers it takes to be alive, unless none
      is left. */
  lemma WakeKeepsMap(rules: Rules, a: Control, beats: seq<Node>, now: real, heard: Control, b: Control,
                     first: seq<Message>, later: seq<Message>)
    requires WakesTo(rules, true, true, a, beats, now, heard, b, first, later)
    requires Assigns(rules.weight, rules.cells, a.health.alive, a.shardMap)
    ensures b.health == Declare(HearAll(a.health, beats, now), now, rules.timeout)
    ensures b.health.alive != {} ==> Assigns(rules.weight, rules.cells, b.health.alive, b.shardMap)
  {
    LeaderKeepsMap(rules, a, beats, now, heard, first);
    if Overdue(heard.health, now, rules.timeout) == {} {
      assert heard.health.alive - {} == heard.health.alive;
    }
  }

  lemma AnnouncedAll(migrations: seq<Message>, published: seq<Message>,
                     changed: map<Cell, (Option<Node>, Option<Node>)>, before: ShardMap, after: ShardMap)
    requires forall c :: c in changed <==> after.Owner(c) != before.Owner(c)
    requires forall m :: m in migrations ==> m.ShardEvent? && m.migration.cell in changed && TellsOwners(m, before, after)
    requires forall c :: c in changed ==> Announced(migrations, c)
    requires forall m :: m in published ==> !m.ShardEvent?
    ensures Announces(migrations + published, before, after)
  {
    forall c ensures Announced(migrations + published, c) <==> c in changed {
      if c in changed {
        var m :| m in migrations && m.ShardEvent? && m.migration.cell == c;
        assert m in migrations + published;
      }
    }
  }

  lemma Regrouped(a: seq<Message>, b: seq<Message>, c: seq<Message>, d: seq<Message>, all: seq<Message>)
    requires all == a + (b + c + d)
    ensures all == a + b + c + d
  {
  }

  class Coordinator {
    const nodeId: Node
    const store: VehicleStore
    const lease: LeaseRegistry
    const weight: Weight
    const allCells: seq<Cell>
    const leaseTtl: real
    const heartbeatTimeout: real
    const publishInterval: real
    const reinjectPerTick: nat
    var lastSeen: map<Node, real>
    var queueDepths: map<Node, nat>
    var aliveWorkers: set<Node>
    var downWorkers: set<Node>
    var shardMap: ShardMap
    var isLeader: bool
    var spillBuffer: seq<Request>
    var nextPublish: real
    var bootstrapped: bool

    constructor (nodeId: Node, store: VehicleStore, lease: LeaseRegistry, weight: Weight, allCells: seq<Cell>,
                 initialWorkers: seq<Node>, leaseTtl: real, heartbeatTimeout: real, publishInterval: real,
                 reinjectPerTick: nat)
      ensures View() == Health(map w | w in initialWorkers :: 0.0, Members(initialWorkers), {})
      ensures !isLeader && spillBuffer == [] && !bootstrapped && nextPublish == 0.0
      ensures queueDepths == map w | w in initialWorkers :: 0
      ensures Assigns(weight, allCells, aliveWorkers, shardMap) && shardMap.version == 0
    {
      this.nodeId, this.store, this.lease, this.weight, this.allCells := nodeId, store, lease, weight, allCells;
      this.leaseTtl, this.heartbeatTimeout, this.publishInterval, this.reinjectPerTick :=
        leaseTtl, heartbeatTimeout, publishInterval, reinjectPerTick;
      lastSeen := map w | w in initialWorkers :: 0.0;
      queueDepths := map w | w in initialWorkers :: 0;
      aliveWorkers, downWorkers := Members(initialWorkers), {};
      shardMap := BuildShardMap(weight, allCells, initialWorkers, 0);
      isLeader, spillBuffer, nextPublish, bootstrapped := false, [], 0.0, false;
      new;
      ShardMapIsRendezvous(weight, allCells, initialWorkers, 0);
      assert Members(initialWorkers) != {} <==> initialWorkers != [] by {
        assert initialWorkers != [] ==> initialWorkers[0] in Members(initialWorkers);
      }
    }

    function View(): Health
      reads this`lastSeen, this`aliveWorkers, this`downWorkers
    {
      Health(lastSeen, aliveWorkers, downWorkers)
    }

    function Terms(): Rules {
      Rules(weight, allCells, heartbeatTimeout)
    }

    ghost function State(): Control
      reads this`lastSeen, this`aliveWorkers, this`downWorkers, this`shardMap, store, store.vehicles.Values
      reads (set id, s | id in store.vehicles && s in store.vehicles[id].route :: s)`boardedAt
    {
      Control(View(), shardMap, store.View())
    }

    function ViewMessage(now: real): Message
      reads this
    {
      ClusterState(ClusterView(shardMap.version, now, nodeId, shardMap, aliveWorkers, downWorkers, queueDepths))
    }

    /** `_publish_view`. */
    method PublishView(now: real) returns (sent: seq<Message>)
      ensures sent == [ViewMessage(now)]
      ensures sent == [ClusterState(ClusterView(shardMap.version, now, nodeId, shardMap, aliveWorkers, downWorkers,
                                                queueDepths))]
    {
      sent := [ClusterState(ClusterView(shardMap.version, now, nodeId, shardMap, aliveWorkers, downWorkers, queueDepths))];
    }

    /** A list of the workers alive. */
    method ListAlive() returns (nodes: seq<Node>)
      ensures Members(nodes) == aliveWorkers && (nodes == [] <==> aliveWorkers == {})
    {
      nodes := [];
      var rest := aliveWorkers;
      while rest != {}
        invariant Members(nodes) + rest == aliveWorkers && (nodes == [] ==> rest == aliveWorkers)
        decreases |rest|
      {
        var n :| n in rest;
        assert Members(nodes + [n]) == Members(nodes) + {n};
        nodes, rest := nodes + [n], rest - {n};
      }
      assert nodes != [] ==> nodes[0] in Members(nodes);
    }

    /** `_rebalance`. */
    method Rebalance(now: real, reason: string) returns (sent: seq<Message>)
      requires store.Valid()
      modifies this`shardMap, store`replica, store.vehicles.Values`ownerNode, store.vehicles.Values`version
      ensures store.Valid()
      ensures RebalancedTo(Terms(), true, aliveWorkers, old(State()), State(), sent)
    {
      if aliveWorkers == {} {
        return [];
      }
      var newMap, migrations := NextMap(now, reason);
      ghost var a := State();
      SwitchTo(newMap);
      var published := PublishView(now);
      sent := migrations + published;
      RebalancedBy(Terms(), aliveWorkers, a, State(), sent);
    }

    /** Handing over the vehicles and adopting the map. */
    method SwitchTo(newMap: ShardMap)
      requires store.Valid()
      modifies this`shardMap, store`replica, store.vehicles.Values`ownerNode, store.vehicles.Values`version
      ensures store.Valid() && shardMap == newMap
      ensures TransferredTo(old(store.View()), newMap, store.View())
    {
      TransferOwners(newMap);
      shardMap := newMap;
    }

    /** The shard map for the workers alive, and the announcement of every cell that changes hands. */
    method NextMap(now: real, reason: string) returns (newMap: ShardMap, migrations: seq<Message>)
      requires aliveWorkers != {}
      ensures Assigns(weight, allCells, aliveWorkers, newMap) && newMap.version == shardMap.version + 1
      ensures forall published: seq<Message> :: (forall m :: m in published ==> !m.ShardEvent?) ==>
                Announces(migrations + published, shardMap, newMap)
    {
      var alive := ListAlive();
      newMap := BuildShardMap(weight, allCells, alive, shardMap.version + 1);
      ShardMapIsRendezvous(weight, allCells, alive, shardMap.version + 1);
      var changed := Diff(newMap, shardMap);
      migrations := Announce(newMap, changed, now, reason);
      forall published: seq<Message> | forall m :: m in published ==> !m.ShardEvent?
        ensures Announces(migrations + published, shardMap, newMap)
      {
        AnnouncedAll(migrations, published, changed, shardMap, newMap);
      }
    }

    /** One message for every cell that changes hands. */
    method Announce(newMap: ShardMap, changed: map<Cell, (Option<Node>, Option<Node>)>, now: real, reason: string)
      returns (migrations: seq<Message>)
      ensures forall m :: m in migrations ==> m.ShardEvent? && m.migration.cell in changed
      ensures forall c :: c in changed ==> Announced(migrations, c)
      ensures |migrations| == |changed.Keys|
      ensures forall m :: m in migrations && m.ShardEvent? && m.migration.cell in changed ==>
                m.migration == ShardMigration(newMap.version, now, m.migration.cell, changed[m.migration.cell].0,
                                              changed[m.migration.cell].1, reason)
    {
      migrations := [];
      var rest := changed.Keys;
      while rest != {}
        invariant rest <= changed.Keys
        invariant forall m :: m in migrations ==> m.ShardEvent? && m.migration.cell in changed
        invariant forall c :: c in changed && c !in rest ==> Announced(migrations, c)
        invariant |migrations| + |rest| == |changed.Keys|
        invariant forall m :: m in migrations && m.ShardEvent? && m.migration.cell in changed ==>
                    m.migration == ShardMigration(newMap.version, now, m.migration.cell, changed[m.migration.cell].0,
                                                  changed[m.migration.cell].1, reason)
        decreases |rest|
      {
        var c :| c in rest;
        var event := ShardEvent(ShardMigration(newMap.version, now, c, changed[c].0, changed[c].1, reason));
        ghost var was := migrations;
        migrations, rest := migrations + [event], rest - {c};
        assert event in migrations;
        assert forall m :: m in was ==> m in migrations;
      }
    }

    /** Every vehicle whose home cell has a new owner is handed over. */
    method TransferOwners(newMap: ShardMap)
      requires store.Valid()
      modifies store`replica, store.vehicles.Values`ownerNode, store.vehicles.Values`version
      ensures store.Valid()
      ensures TransferredTo(old(store.View()), newMap, store.View())
    {
      ghost var s := store.View();
      for k := 0 to |store.order|
        invariant store.Valid()
        invariant store.View() == Transferred(s, newMap, k)
      {
        assert store.order[k] in store.order;
        var v := store.vehicles[store.order[k]];
        assert store.View().vehicles[v.id] == v.View();
        if v.homeCell.Some? {
          var newOwner := newMap.Owner(v.homeCell.value);
          if newOwner.Some? && v.ownerNode != newOwner {
            store.ReassignOwner(v.id, newOwner.value);
          }
        }
      }
    }

    method IngestBeat(beat: Heartbeat, now: real) returns (sent: seq<Message>)
      requires store.Valid()
      modifies this`lastSeen, this`queueDepths, this`aliveWorkers, this`downWorkers, this`shardMap
      modifies store`replica, store.vehicles.Values`ownerNode, store.vehicles.Values`version
      ensures store.Valid()
      ensures HearsTo(Terms(), isLeader, old(State()), beat.node, now, State(), sent)
      ensures queueDepths == old(queueDepths)[beat.node := beat.queueDepth]
    {
      sent := [];
      ghost var a := State();
      var joined := NoteBeat(beat, now);
      ghost var mid := State();
      if joined && isLeader {
        sent := Rebalance(now, "node_join");
      }
      RebalancedFrom(Terms(), isLeader && joined, aliveWorkers, a, mid, State(), sent);
    }

    /** Noting down a heartbeat; `joined` tells whether it brings the worker into the cluster, or back. */
    method NoteBeat(beat: Heartbeat, now: real) returns (joined: bool)
      modifies this`lastSeen, this`queueDepths, this`aliveWorkers, this`downWorkers
      ensures State() == old(State()).(health := Hear(old(View()), beat.node, now))
      ensures joined <==> Joins(old(View()), beat.node)
      ensures queueDepths == old(queueDepths)[beat.node := beat.queueDepth]
    {
      ghost var h := View();
      lastSeen := lastSeen[beat.node := now];
      queueDepths := queueDepths[beat.node := beat.queueDepth];
      joined := true;
      if beat.node in downWorkers {
        downWorkers, aliveWorkers := downWorkers - {beat.node}, aliveWorkers + {beat.node};
      } else if beat.node !in aliveWorkers {
        aliveWorkers := aliveWorkers + {beat.node};
      } else {
        joined := false;
      }
      assert View() == Hear(h, beat.node, now);
    }

    /** `_ingest`. */
    method Ingest(msg: Message, now: real) returns (sent: seq<Message>)
      requires store.Valid()
      modifies this`lastSeen, this`queueDepths, this`aliveWorkers, this`downWorkers, this`shardMap, this`spillBuffer
      modifies store`replica, store.vehicles.Values`ownerNode, store.vehicles.Values`version
      ensures store.Valid()
      ensures if msg.HeartbeatMessage? then HearsTo(Terms(), isLeader, old(State()), msg.beat.node, now, State(), sent)
              else State() == old(State()) && sent == []
      ensures spillBuffer == old(spillBuffer) + if msg.Spill? then [msg.request] else []
      ensures queueDepths == if msg.HeartbeatMessage? then old(queueDepths)[msg.beat.node := msg.beat.queueDepth]
                             else old(queueDepths)
    {
      sent := [];
      if msg.HeartbeatMessage? {
        sent := IngestBeat(msg.beat, now);
      } else if msg.Spill? {
        spillBuffer := spillBuffer + [msg.request];
      }
    }

    /** `_detect_failures`. */
    method DetectFailures(now: real) returns (sent: seq<Message>)
      requires store.Valid()
      modifies this`aliveWorkers, this`downWorkers, this`shardMap
      modifies store`replica, store.vehicles.Values`ownerNode, store.vehicles.Values`version
      ensures store.Valid()
      ensures DeclaresTo(Terms(), old(State()), now, State(), sent)
    {
      sent := [];
      ghost var a := State();
      var newlyDown := FindOverdue(now);
      MarkDown(newlyDown);
      ghost var mid := State();
      if newlyDown != {} {
        sent := Rebalance(now, "node_failure");
      }
      RebalancedFrom(Terms(), newlyDown != {}, aliveWorkers, a, mid, State(), sent);
    }

    method MarkDown(newlyDown: set<Node>)
      modifies this`aliveWorkers, this`downWorkers
      ensures State() == old(State()).(health := old(View()).(alive := old(aliveWorkers) - newlyDown,
                                                              down := old(downWorkers) + newlyDown))
    {
      aliveWorkers, downWorkers := aliveWorkers - newlyDown, downWorkers + newlyDown;
    }

    method FindOverdue(now: real) returns (newlyDown: set<Node>)
      ensures newlyDown == Overdue(View(), now, heartbeatTimeout)
    {
      newlyDown := {};
      var rest := aliveWorkers;
      while rest != {}
        invariant rest <= aliveWorkers
        invariant newlyDown == Overdue(View(), now, heartbeatTimeout) - rest
        decreases |rest|
      {
        var w :| w in rest;
        var seen := if w in lastSeen then lastSeen[w] else 0.0;
        if now - seen > heartbeatTimeout {
          newlyDown := newlyDown + {w};
        }
        rest := rest - {w};
      }
    }

    /** `_reinject_spill`. */
    method ReinjectSpill() returns (sent: seq<Message>)
      modifies this`spillBuffer
      ensures |spillBuffer| == (if |old(spillBuffer)| < reinjectPerTick then 0 else |old(spillBuffer)| - reinjectPerTick)
      ensures spillBuffer == old(spillBuffer)[|old(spillBuffer)| - |spillBuffer|..]
      ensures Metered(reinjectPerTick, old(spillBuffer), Round([], true, shardMap), spillBuffer, sent)
      ensures State() == old(State())
    {
      sent := [];
      ghost var all := spillBuffer;
      var n := 0;
      while spillBuffer != [] && n < reinjectPerTick
        invariant n <= |all| && n <= reinjectPerTick
        invariant spillBuffer == all[n..] && sent == ToOwners(all[..n], shardMap)
        decreases reinjectPerTick - n
      {
        var req := spillBuffer[0];
        spillBuffer := spillBuffer[1..];
        ToOwnersSnoc(all[..n], req, shardMap);
        ToOwnersOne(req, shardMap);
        assert all[..n + 1] == all[..n] + [req];
        var owner := if req.pickupCell.Some? then shardMap.Owner(req.pickupCell.value) else None;
        if owner.Some? {
          sent := sent + [ToWorker(owner.value, req)];
        }
        n := n + 1;
      }
      TakenFromFront(reinjectPerTick, all, n, shardMap, spillBuffer, sent);
    }

    /** Handling everything that has arrived, in order. */
    method IngestAll(inbox: seq<Message>, now: real) returns (sent: seq<Message>)
      requires store.Valid()
      modifies this`lastSeen, this`queueDepths, this`aliveWorkers, this`downWorkers, this`shardMap, this`spillBuffer
      modifies store`replica, store.vehicles.Values`ownerNode, store.vehicles.Values`version
      ensures store.Valid()
      ensures HearsAllTo(Terms(), isLeader, old(State()), Beats(inbox), now, State(), sent)
      ensures spillBuffer == old(spillBuffer) + Spilled(inbox)
    {
      sent := [];
      ghost var a, buffer := State(), spillBuffer;
      for k := 0 to |inbox|
        invariant store.Valid()
        invariant HearsAllTo(Terms(), isLeader, a, Beats(inbox[..k]), now, State(), sent)
        invariant spillBuffer == buffer + Spilled(inbox[..k])
      {
        assert inbox[..k + 1] == inbox[..k] + [inbox[k]];
        InboxOneMore(inbox[..k], inbox[k]);
        ghost var mid, before := State(), sent;
        var more := Ingest(inbox[k], now);
        sent := sent + more;
        if inbox[k].HeartbeatMessage? {
          HearsOneMore(Terms(), isLeader, a, Beats(inbox[..k]), now, mid, before, inbox[k].beat.node, State(), more);
        } else {
          assert sent == before;
        }
      }
      assert inbox[..|inbox|] == inbox;
    }

    /** Acquiring or renewing the lease. */
    method Contend(now: real)
      modifies this`isLeader, this`bootstrapped, lease
      ensures isLeader <==> Granted(old(lease.View()), nodeId, now)
      ensures lease.View() == Acquire(old(lease.View()), nodeId, now, leaseTtl)
      ensures isLeader ==> (bootstrapped <==> old(isLeader && bootstrapped))
      ensures State() == old(State())
    {
      var wasLeader := isLeader;
      isLeader := lease.TryAcquire(nodeId, now, leaseTtl);
      if isLeader && !wasLeader {
        bootstrapped := false;
      }
    }

    /** One round of the loop of `run`. */
    method Wake(inbox: seq<Message>, now: real)
      returns (sent: seq<Message>, ghost heard: Control, ghost first: seq<Message>, ghost later: seq<Message>,
               ghost again: seq<Message>)
      requires store.Valid()
      modifies this, lease
      modifies store`replica, store.vehicles.Values`ownerNode, store.vehicles.Values`version
      ensures store.Valid()
      ensures isLeader <==> Granted(old(lease.View()), nodeId, now)
      ensures lease.View() == Acquire(old(lease.View()), nodeId, now, leaseTtl)
      ensures WakesTo(Terms(), old(isLeader), isLeader, old(State()), Beats(inbox), now, heard, State(), first, later)
      ensures Metered(reinjectPerTick, old(spillBuffer), Round(Spilled(inbox), isLeader, shardMap), spillBuffer, again)
      ensures var due := isLeader && (!old(isLeader && bootstrapped) || now >= old(nextPublish));
              && sent == first + later + again + (if due then [ViewMessage(now)] else [])
              && nextPublish == if due then now + publishInterval else old(nextPublish)
    {
      sent := IngestAll(inbox, now);
      heard, first, later, again := State(), sent, [], [];
      ghost var held, spilled := spillBuffer, Spilled(inbox);
      Contend(now);
      if isLeader {
        ghost var due := !bootstrapped || now >= nextPublish;
        var more;
        more, later, again := Lead(now);
        sent := sent + more;
        Regrouped(first, later, again, if due then [ViewMessage(now)] else [], sent);
      }
      ArrivedBefore(reinjectPerTick, old(spillBuffer), spilled, isLeader, shardMap, spillBuffer, again);
    }

    /** The control work of a leader: failures, spilled requests, and the cluster view. */
    method Lead(now: real) returns (sent: seq<Message>, ghost moved: seq<Message>, ghost again: seq<Message>)
      requires store.Valid()
      modifies this`aliveWorkers, this`downWorkers, this`shardMap, this`spillBuffer, this`nextPublish, this`bootstrapped
      modifies store`replica, store.vehicles.Values`ownerNode, store.vehicles.Values`version
      ensures store.Valid()
      ensures DeclaresTo(Terms(), old(State()), now, State(), moved)
      ensures Metered(reinjectPerTick, old(spillBuffer), Round([], true, shardMap), spillBuffer, again)
      ensures var due := old(!bootstrapped || now >= nextPublish);
              && sent == moved + again + (if due then [ViewMessage(now)] else [])
              && nextPublish == if due then now + publishInterval else old(nextPublish)
    {
      sent := DetectFailures(now);
      moved := sent;
      var reinjected := ReinjectSpill();
      var published := MaybePublish(now);
      again := reinjected;
      sent := sent + reinjected + published;
    }

    /** The cluster view, when it is time. */
    method MaybePublish(now: real) returns (sent: seq<Message>)
      modifies this`nextPublish, this`bootstrapped
      ensures var due := old(!bootstrapped || now >= nextPublish);
              && sent == (if due then [ViewMessage(now)] else [])
              && nextPublish == (if due then now + publishInterval else old(nextPublish))
              && (due ==> bootstrapped) && (!due ==> bootstrapped == old(bootstrapped))
      ensures State() == old(State())
    {
      sent := [];
      if now >= nextPublish || !bootstrapped {
        sent := PublishView(now);
        nextPublish := now + publishInterval;
        bootstrapped := true;
      }
    }
  }
}
