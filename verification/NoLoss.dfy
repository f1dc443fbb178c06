/** When the bus loses nothing and nobody is killed, no request vanishes: workers may join, messages
    may be duplicated, and requests may be rerouted, spilled and put back. */
module NoLoss {
  import opened Models
  import opened Sharding
  import opened WorkQueue
  import opened Delivery

  /** Request `id` is on its way to a worker or to the leader. */
  ghost predicate OnTheWay(s: Net, leader: Node, id: int) {
    exists p :: p in s.flight && p.req.id == id && (if p.ToWorker? then p.node in s.queues else p.node == leader)
  }

  ghost predicate InSomeQueue(s: Net, id: int) {
    exists n :: n in s.queues && id in Ids(s.queues[n].pending)
  }

  predicate HeldByLeader(s: Net, leader: Node, id: int) {
    leader in s.spills && id in Ids(s.spills[leader])
  }

  /** Request `id` is in the gateway's buffer, on its way, in a worker's queue, in the leader's spill
      buffer, or decided. */
  ghost predicate Present(s: Net, leader: Node, id: int) {
    id in Ids(s.buffer) || OnTheWay(s, leader, id) || InSomeQueue(s, id) || HeldByLeader(s, leader, id) || id in s.decisions
  }

  /** A shard map covers the area with workers that exist. */
  ghost predicate Covers(area: set<Cell>, s: Net, m: ShardMap) {
    forall c :: c in area ==> m.Owner(c).Some? && m.Owner(c).value in s.queues
  }

  predicate InArea(area: set<Cell>, r: Req) {
    r.cell.Some? && r.cell.value in area
  }

  /** What the actors do in a run without losses: the maps they see cover the area. */
  ghost predicate Sheltered(area: set<Cell>, s: Net, e: Event) {
    ViewOf(e).Some? ==> Covers(area, s, ViewOf(e).value)
  }

  /** The requests themselves: queues in order, and every copy as emitted. */
  ghost predicate Sane(leader: Node, s: Net) {
    match s
    case Net(_, buffer, flight, queues, _, spills, decisions) =>
      && leader in spills
      && (forall n :: n in queues ==> QueueOk(queues[n]) && forall id :: id in queues[n].decided ==> id in decisions)
      && (forall i :: 0 <= i < |buffer| ==> Known(s, buffer[i]))
      && (forall p :: p in flight ==> Known(s, p.req))
      && (forall n, i :: n in queues && 0 <= i < |queues[n].pending| ==> Known(s, queues[n].pending[i]))
      && (forall c, i :: c in spills && 0 <= i < |spills[c]| ==> Known(s, spills[c][i]))
  }

  ghost predicate AllPresent(area: set<Cell>, leader: Node, s: Net) {
    forall id :: id in s.emitted && InArea(area, s.emitted[id]) ==> Present(s, leader, id)
  }

  /** Nothing present gets lost, except perhaps the request in hand. */
  ghost predicate KeepsBut(s: Net, t: Net, leader: Node, hand: int) {
    forall id :: id != hand && Present(s, leader, id) ==> Present(t, leader, id)
  }

  ghost predicate Keeps(s: Net, t: Net, leader: Node) {
    forall id :: Present(s, leader, id) ==> Present(t, leader, id)
  }

  lemma TailIds(rs: seq<Req>, id: int)
    requires rs != [] && id in Ids(rs) && id != rs[0].id
    ensures id in Ids(rs[1..])
  {
    assert rs == [rs[0]] + rs[1..];
    IdsCons(rs[0], rs[1..]);
  }

  lemma FrontIds(rs: seq<Req>, id: int)
    requires rs != [] && id in Ids(rs) && id != rs[|rs| - 1].id
    ensures id in Ids(rs[..|rs| - 1])
  {
    assert rs == rs[..|rs| - 1] + [rs[|rs| - 1]];
    IdsSnoc(rs[..|rs| - 1], rs[|rs| - 1]);
  }

  // ---------------------------------------------------------------- picking a request up

  lemma TakeBuffered(s: Net, leader: Node, t: Net)
    requires s.buffer != [] && t == s.(buffer := s.buffer[1..])
    ensures KeepsBut(s, t, leader, s.buffer[0].id)
  {
    forall id | id != s.buffer[0].id && Present(s, leader, id) ensures Present(t, leader, id) {
      if id in Ids(s.buffer) {
        TailIds(s.buffer, id);
      }
      assert OnTheWay(s, leader, id) ==> OnTheWay(t, leader, id);
    }
  }

  lemma TakeFlying(s: Net, leader: Node, p: Packet, t: Net)
    requires p in s.flight && t == s.(flight := s.flight - multiset{p})
    ensures KeepsBut(s, t, leader, p.req.id)
    ensures p.ToCoordinator? && p.node != leader ==> Keeps(s, t, leader)
  {
    forall id | (id != p.req.id || (p.ToCoordinator? && p.node != leader)) && Present(s, leader, id)
      ensures Present(t, leader, id)
    {
      if OnTheWay(s, leader, id) {
        var x :| x in s.flight && x.req.id == id && (if x.ToWorker? then x.node in s.queues else x.node == leader);
        assert x in t.flight;
        assert OnTheWay(t, leader, id);
      }
    }
  }

  /** A request leaves a queue at either end. */
  lemma TakeQueued(s: Net, leader: Node, n: Node, q: Queue, r: Req, t: Net)
    requires n in s.queues && s.queues[n].pending != [] && t == s.(queues := s.queues[n := q])
    requires || (r == s.queues[n].pending[0] && q.pending == s.queues[n].pending[1..])
             || (r == s.queues[n].pending[|s.queues[n].pending| - 1]
                 && q.pending == s.queues[n].pending[..|s.queues[n].pending| - 1])
    ensures KeepsBut(s, t, leader, r.id)
  {
    forall id | id != r.id && Present(s, leader, id) ensures Present(t, leader, id) {
      if InSomeQueue(s, id) {
        var m :| m in s.queues && id in Ids(s.queues[m].pending);
        if m == n {
          if r == s.queues[n].pending[0] && q.pending == s.queues[n].pending[1..] {
            TailIds(s.queues[n].pending, id);
          } else {
            FrontIds(s.queues[n].pending, id);
          }
        }
        assert m in t.queues && id in Ids(t.queues[m].pending);
      }
      assert OnTheWay(s, leader, id) ==> OnTheWay(t, leader, id);
    }
  }

  lemma TakeHeld(s: Net, leader: Node, c: Node, t: Net)
    requires c in s.spills && s.spills[c] != [] && t == s.(spills := s.spills[c := s.spills[c][1..]])
    ensures KeepsBut(s, t, leader, s.spills[c][0].id)
  {
    forall id | id != s.spills[c][0].id && Present(s, leader, id) ensures Present(t, leader, id) {
      if HeldByLeader(s, leader, id) && c == leader {
        TailIds(s.spills[c], id);
      }
      assert OnTheWay(s, leader, id) ==> OnTheWay(t, leader, id);
    }
  }

  // ---------------------------------------------------------------- putting it down

  lemma PutInBuffer(s: Net, leader: Node, r: Req, t: Net)
    requires t == s.(buffer := s.buffer + [r])
    ensures Keeps(s, t, leader) && Present(t, leader, r.id)
  {
    IdsSnoc(s.buffer, r);
    forall id | Present(s, leader, id) ensures Present(t, leader, id) {
      assert OnTheWay(s, leader, id) ==> OnTheWay(t, leader, id);
    }
  }

  lemma PutInFlight(s: Net, leader: Node, p: Packet, copies: nat, t: Net)
    requires copies >= 1 && t == s.(flight := Publish(s.flight, p, copies))
    requires if p.ToWorker? then p.node in s.queues else p.node == leader
    ensures Keeps(s, t, leader) && Present(t, leader, p.req.id)
  {
    assert p in t.flight;
    assert OnTheWay(t, leader, p.req.id);
    MoreInFlight(s, leader, t);
  }

  lemma MoreInFlight(s: Net, leader: Node, t: Net)
    requires t == s.(flight := t.flight) && forall p :: p in s.flight ==> p in t.flight
    ensures Keeps(s, t, leader)
  {
    forall id | Present(s, leader, id) ensures Present(t, leader, id) {
      if OnTheWay(s, leader, id) {
        var x :| x in s.flight && x.req.id == id && (if x.ToWorker? then x.node in s.queues else x.node == leader);
        assert x in t.flight;
      }
    }
  }

  /** A delivered request is queued, or was known already: pending, or decided. */
  lemma PutInQueue(s: Net, leader: Node, r: Req, n: Node, t: Net)
    requires n in s.queues && QueueOk(s.queues[n]) && forall id :: id in s.queues[n].decided ==> id in s.decisions
    requires t == s.(queues := s.queues[n := WorkQueue.Receive(s.queues[n], r)])
    ensures Keeps(s, t, leader) && Present(t, leader, r.id)
  {
    IdsSnoc(s.queues[n].pending, r);
    forall id | Present(s, leader, id) ensures Present(t, leader, id) {
      if InSomeQueue(s, id) {
        var m :| m in s.queues && id in Ids(s.queues[m].pending);
        assert m in t.queues && id in Ids(t.queues[m].pending);
      }
      assert OnTheWay(s, leader, id) ==> OnTheWay(t, leader, id);
    }
    assert r.id in Ids(t.queues[n].pending) || r.id in t.decisions;
  }

  lemma PutInHold(s: Net, leader: Node, r: Req, c: Node, t: Net)
    requires c in s.spills && t == s.(spills := s.spills[c := s.spills[c] + [r]])
    ensures Keeps(s, t, leader) && (c == leader ==> Present(t, leader, r.id))
  {
    IdsSnoc(s.spills[c], r);
    forall id | Present(s, leader, id) ensures Present(t, leader, id) {
      assert OnTheWay(s, leader, id) ==> OnTheWay(t, leader, id);
    }
  }

  lemma Decide(s: Net, leader: Node, id: int, t: Net)
    requires t == s.(decisions := s.decisions + multiset{id})
    ensures Keeps(s, t, leader) && Present(t, leader, id)
  {
    forall x | Present(s, leader, x) ensures Present(t, leader, x) {
      assert OnTheWay(s, leader, x) ==> OnTheWay(t, leader, x);
    }
  }

  lemma PutSpilled(s: Net, leader: Node, r: Req, to: seq<Node>, t: Net)
    requires leader in multiset(to) && t == s.(flight := FanOut(s.flight, r, to))
    ensures Keeps(s, t, leader) && Present(t, leader, r.id)
  {
    FanOutIs(s.flight, r, to);
    assert ToCoordinator(leader, r) in t.flight;
    assert OnTheWay(t, leader, r.id);
    MoreInFlight(s, leader, t);
  }

  lemma RoutedPresent(area: set<Cell>, s: Net, leader: Node, r: Req, view: Option<ShardMap>, copies: nat, t: Net)
    requires InArea(area, r) && copies >= 1 && (view.Some? ==> Covers(area, s, view.value))
    requires t == Routed(s, r, view, copies)
    ensures Keeps(s, t, leader) && Present(t, leader, r.id)
  {
    var owner := KnownOwner(view, r.cell);
    if owner.None? {
      PutInBuffer(s, leader, r, t);
    } else {
      PutInFlight(s, leader, ToWorker(owner.value, r), copies, t);
    }
  }

  /** Whatever its cell, a routed request takes nothing else away. */
  lemma RoutedKeeps(s: Net, leader: Node, r: Req, view: Option<ShardMap>, copies: nat, t: Net)
    requires t == Routed(s, r, view, copies)
    ensures Keeps(s, t, leader)
  {
    var owner := KnownOwner(view, r.cell);
    if owner.None? {
      PutInBuffer(s, leader, r, t);
    } else {
      assert forall p :: p in s.flight ==> p in t.flight;
      MoreInFlight(s, leader, t);
    }
  }

  // ---------------------------------------------------------------- every event

  lemma EmitPresent(area: set<Cell>, bus: Bus, s: Net, leader: Node, r: Req, view: Option<ShardMap>, copies: nat)
    requires !bus.loses && AllPresent(area, leader, s) && Sheltered(area, s, Emit(r, view, copies))
    requires Enabled(bus, s, Emit(r, view, copies))
    ensures AllPresent(area, leader, After(bus, s, Emit(r, view, copies)))
  {
    var s0 := s.(emitted := s.emitted[r.id := r]);
    var t := Routed(s0, r, view, copies);
    RoutedKeeps(s0, leader, r, view, copies, t);
    if InArea(area, r) {
      RoutedPresent(area, s0, leader, r, view, copies, t);
    }
    forall id | id in t.emitted && InArea(area, t.emitted[id]) ensures Present(t, leader, id) {
      if id != r.id {
        assert Present(s, leader, id);
        assert OnTheWay(s, leader, id) ==> OnTheWay(s0, leader, id);
        assert Present(s0, leader, id);
      }
    }
  }

  /** Picking a request up from `s` to `s0` and putting it down from `s0` to `t`. */
  lemma Through(area: set<Cell>, leader: Node, s: Net, s0: Net, t: Net, r: Req)
    requires AllPresent(area, leader, s) && t.emitted == s.emitted
    requires KeepsBut(s, s0, leader, r.id) && Keeps(s0, t, leader)
    requires Known(s, r) && (InArea(area, r) ==> Present(t, leader, r.id))
    ensures AllPresent(area, leader, t)
  {
  }

  lemma FlushPresent(area: set<Cell>, bus: Bus, s: Net, leader: Node, view: Option<ShardMap>, copies: nat)
    requires !bus.loses && Sane(leader, s) && AllPresent(area, leader, s) && Sheltered(area, s, Flush(view, copies))
    requires Enabled(bus, s, Flush(view, copies))
    ensures AllPresent(area, leader, After(bus, s, Flush(view, copies)))
  {
    var r, s0 := s.buffer[0], s.(buffer := s.buffer[1..]);
    var t := Routed(s0, r, view, copies);
    TakeBuffered(s, leader, s0);
    RoutedKeeps(s0, leader, r, view, copies, t);
    if InArea(area, r) {
      RoutedPresent(area, s0, leader, r, view, copies, t);
    }
    Through(area, leader, s, s0, t, r);
  }

  lemma ReceivePresent(area: set<Cell>, bus: Bus, s: Net, leader: Node, p: Packet)
    requires Sane(leader, s) && AllPresent(area, leader, s) && Enabled(bus, s, Receive(p))
    ensures AllPresent(area, leader, After(bus, s, Receive(p)))
  {
    var s0, t := s.(flight := s.flight - multiset{p}), After(bus, s, Receive(p));
    TakeFlying(s, leader, p, s0);
    PutInQueue(s0, leader, p.req, p.node, t);
    Through(area, leader, s, s0, t, p.req);
  }

  lemma CollectPresent(area: set<Cell>, bus: Bus, s: Net, leader: Node, p: Packet)
    requires Sane(leader, s) && AllPresent(area, leader, s) && Enabled(bus, s, Collect(p))
    ensures AllPresent(area, leader, After(bus, s, Collect(p)))
  {
    var s0, t := s.(flight := s.flight - multiset{p}), After(bus, s, Collect(p));
    TakeFlying(s, leader, p, s0);
    PutInHold(s0, leader, p.req, p.node, t);
    Through(area, leader, s, s0, t, p.req);
  }

  lemma ProcessPresent(area: set<Cell>, bus: Bus, s: Net, leader: Node, n: Node, view: Option<ShardMap>, copies: nat)
    requires !bus.loses && Sane(leader, s) && AllPresent(area, leader, s) && Sheltered(area, s, Process(n, view, copies))
    requires Enabled(bus, s, Process(n, view, copies))
    ensures AllPresent(area, leader, After(bus, s, Process(n, view, copies)))
  {
    var r, q := s.queues[n].pending[0], ProcessFirst(s.queues[n], n, view);
    var s0, t := s.(queues := s.queues[n := q]), After(bus, s, Process(n, view, copies));
    TakeQueued(s, leader, n, q, r, s0);
    if FateOf(n, r, view).Kept? {
      Decide(s0, leader, r.id, t);
    } else {
      var p := ToWorker(FateOf(n, r, view).to, r);
      assert forall x :: x in s0.flight ==> x in t.flight;
      MoreInFlight(s0, leader, t);
      if InArea(area, r) {
        PutInFlight(s0, leader, p, copies, t);
      }
    }
    Through(area, leader, s, s0, t, r);
  }

  lemma SpillPresent(area: set<Cell>, bus: Bus, s: Net, leader: Node, n: Node, to: seq<Node>)
    requires !bus.loses && Sane(leader, s) && AllPresent(area, leader, s) && Enabled(bus, s, Spill(n, to))
    ensures AllPresent(area, leader, After(bus, s, Spill(n, to)))
  {
    var q := s.queues[n];
    var r := q.pending[|q.pending| - 1];
    var s0, t := s.(queues := s.queues[n := DropLast(q)]), After(bus, s, Spill(n, to));
    TakeQueued(s, leader, n, DropLast(q), r, s0);
    PutSpilled(s0, leader, r, to, t);
    Through(area, leader, s, s0, t, r);
  }

  lemma ReinjectPresent(area: set<Cell>, bus: Bus, s: Net, leader: Node, c: Node, m: ShardMap, copies: nat)
    requires !bus.loses && Sane(leader, s) && AllPresent(area, leader, s) && Sheltered(area, s, Reinject(c, m, copies))
    requires Enabled(bus, s, Reinject(c, m, copies))
    ensures AllPresent(area, leader, After(bus, s, Reinject(c, m, copies)))
  {
    var r := s.spills[c][0];
    var s0, t := s.(spills := s.spills[c := s.spills[c][1..]]), After(bus, s, Reinject(c, m, copies));
    TakeHeld(s, leader, c, s0);
    var owner := KnownOwner(Some(m), r.cell);
    if owner.Some? {
      assert forall x :: x in s0.flight ==> x in t.flight;
      MoreInFlight(s0, leader, t);
      if InArea(area, r) {
        PutInFlight(s0, leader, ToWorker(owner.value, r), copies, t);
      }
    }
    Through(area, leader, s, s0, t, r);
  }

  lemma JoinPresent(area: set<Cell>, bus: Bus, s: Net, leader: Node, n: Node)
    requires AllPresent(area, leader, s) && Enabled(bus, s, JoinWorker(n))
    ensures AllPresent(area, leader, After(bus, s, JoinWorker(n)))
  {
    var t := After(bus, s, JoinWorker(n));
    forall id | id in t.emitted && InArea(area, t.emitted[id]) ensures Present(t, leader, id) {
      assert Present(s, leader, id);
      if OnTheWay(s, leader, id) {
        var x :| x in s.flight && x.req.id == id && (if x.ToWorker? then x.node in s.queues else x.node == leader);
        assert x in t.flight;
        assert OnTheWay(t, leader, id);
      } else if InSomeQueue(s, id) {
        var m :| m in s.queues && id in Ids(s.queues[m].pending);
        assert m in t.queues && id in Ids(t.queues[m].pending);
      }
    }
  }

  lemma StepPresent(area: set<Cell>, bus: Bus, s: Net, leader: Node, e: Event)
    requires !bus.loses && Sane(leader, s) && AllPresent(area, leader, s) && Sheltered(area, s, e) && Enabled(bus, s, e)
    ensures AllPresent(area, leader, After(bus, s, e))
  {
    match e
    case Emit(r, view, copies) => EmitPresent(area, bus, s, leader, r, view, copies);
    case Flush(view, copies) => FlushPresent(area, bus, s, leader, view, copies);
    case Receive(p) => ReceivePresent(area, bus, s, leader, p);
    case Collect(p) => CollectPresent(area, bus, s, leader, p);
    case Process(n, view, copies) => ProcessPresent(area, bus, s, leader, n, view, copies);
    case Spill(n, to) => SpillPresent(area, bus, s, leader, n, to);
    case Reinject(c, m, copies) => ReinjectPresent(area, bus, s, leader, c, m, copies);
    case JoinWorker(n) => JoinPresent(area, bus, s, leader, n);
  }

  lemma RoutedSane(leader: Node, s: Net, r: Req, view: Option<ShardMap>, copies: nat)
    requires Sane(leader, s) && Known(s, r)
    ensures Sane(leader, Routed(s, r, view, copies))
  {
    var t := Routed(s, r, view, copies);
    forall p | p in t.flight ensures Known(t, p.req) {
      assert p in s.flight || p.req == r;
    }
  }

  lemma ReceiveSane(leader: Node, bus: Bus, s: Net, p: Packet)
    requires Sane(leader, s) && Enabled(bus, s, Receive(p))
    ensures Sane(leader, After(bus, s, Receive(p)))
  {
    ReceiveOk(s.queues[p.node], p.req);
  }

  lemma ProcessSane(leader: Node, bus: Bus, s: Net, n: Node, view: Option<ShardMap>, copies: nat)
    requires Sane(leader, s) && Enabled(bus, s, Process(n, view, copies))
    ensures Sane(leader, After(bus, s, Process(n, view, copies)))
  {
    ProcessOk(s.queues[n], n, view);
    var t, q := After(bus, s, Process(n, view, copies)), ProcessFirst(s.queues[n], n, view);
    forall p | p in t.flight ensures Known(t, p.req) {
      assert p in s.flight || p.req == s.queues[n].pending[0];
    }
    forall i | 0 <= i < |q.pending| ensures Known(t, q.pending[i]) {
      assert q.pending[i] == s.queues[n].pending[i + 1];
    }
  }

  lemma SpillSane(leader: Node, bus: Bus, s: Net, n: Node, to: seq<Node>)
    requires Sane(leader, s) && Enabled(bus, s, Spill(n, to))
    ensures Sane(leader, After(bus, s, Spill(n, to)))
  {
    var q := s.queues[n];
    DropLastOk(q);
    FanOutIs(s.flight, q.pending[|q.pending| - 1], to);
    var t := After(bus, s, Spill(n, to));
    forall p | p in t.flight ensures Known(t, p.req) {
      assert p in s.flight || p.req == q.pending[|q.pending| - 1];
    }
  }

  lemma ReinjectSane(leader: Node, bus: Bus, s: Net, c: Node, m: ShardMap, copies: nat)
    requires Sane(leader, s) && Enabled(bus, s, Reinject(c, m, copies))
    ensures Sane(leader, After(bus, s, Reinject(c, m, copies)))
  {
    var t := After(bus, s, Reinject(c, m, copies));
    forall p | p in t.flight ensures Known(t, p.req) {
      assert p in s.flight || p.req == s.spills[c][0];
    }
  }

  lemma EmitSane(leader: Node, bus: Bus, s: Net, r: Req, view: Option<ShardMap>, copies: nat)
    requires Sane(leader, s) && Enabled(bus, s, Emit(r, view, copies))
    ensures Sane(leader, After(bus, s, Emit(r, view, copies)))
  {
    RoutedSane(leader, s.(emitted := s.emitted[r.id := r]), r, view, copies);
  }

  lemma StepSane(leader: Node, bus: Bus, s: Net, e: Event)
    requires !bus.loses && Sane(leader, s) && Enabled(bus, s, e)
    ensures Sane(leader, After(bus, s, e))
  {
    match e
    case Emit(r, view, copies) => EmitSane(leader, bus, s, r, view, copies);
    case Flush(view, copies) => RoutedSane(leader, s.(buffer := s.buffer[1..]), s.buffer[0], view, copies);
    case Receive(p) => ReceiveSane(leader, bus, s, p);
    case Process(n, view, copies) => ProcessSane(leader, bus, s, n, view, copies);
    case Spill(n, to) => SpillSane(leader, bus, s, n, to);
    case Reinject(c, m, copies) => ReinjectSane(leader, bus, s, c, m, copies);
    case Collect(p) => CollectSane(leader, bus, s, p);
    case JoinWorker(n) => JoinSane(leader, bus, s, n);
  }

  lemma CollectSane(leader: Node, bus: Bus, s: Net, p: Packet)
    requires Sane(leader, s) && Enabled(bus, s, Collect(p))
    ensures Sane(leader, After(bus, s, Collect(p)))
  {
  }

  lemma JoinSane(leader: Node, bus: Bus, s: Net, n: Node)
    requires Sane(leader, s) && Enabled(bus, s, JoinWorker(n))
    ensures Sane(leader, After(bus, s, JoinWorker(n)))
  {
  }

  lemma {:induction false} AlwaysPresent(area: set<Cell>, bus: Bus, run: seq<Net>, events: seq<Event>, leader: Node, i: nat)
    requires Run(bus, run, events) && i < |run| && !bus.loses && leader in run[0].spills
    requires forall j :: 0 <= j < |events| ==> Sheltered(area, run[j], events[j])
    ensures Sane(leader, run[i]) && AllPresent(area, leader, run[i])
  {
    if i > 0 {
      AlwaysPresent(area, bus, run, events, leader, i - 1);
      StepSane(leader, bus, run[i - 1], events[i - 1]);
      StepPresent(area, bus, run[i - 1], leader, events[i - 1]);
    }
  }

  /** In a run without losses and kills, whose shard maps always cover the area with existing workers,
      every request emitted in the area is somewhere: buffered, on its way, queued, held by the leader,
      or decided. */
  lemma NoRequestVanishes(area: set<Cell>, bus: Bus, run: seq<Net>, events: seq<Event>, leader: Node, i: nat, id: int)
    requires Run(bus, run, events) && i < |run| && !bus.loses && leader in run[0].spills
    requires forall j :: 0 <= j < |events| ==> Sheltered(area, run[j], events[j])
    requires id in run[i].emitted && InArea(area, run[i].emitted[id])
    ensures Present(run[i], leader, id)
  {
    AlwaysPresent(area, bus, run, events, leader, i);
  }

  // ---------------------------------------------------------------- a request outside the area

  /** One worker and one coordinator; where request `r` is on its way through them. */
  function Stage(n: Node, leader: Node, r: Req, flight: multiset<Packet>, pending: seq<Req>, held: seq<Req>): Net {
    Net(map[r.id := r], [], flight, map[n := Queue(pending, Ids(pending), {})], {}, map[leader := held], multiset{})
  }

  const SAFE := Bus(false, false)

  lemma OneId(r: Req)
    ensures Ids([r]) == {r.id} && Ids([]) == {}
  {
    assert [r][0].id == r.id;
  }

  lemma OneEntry<K, V>(k: K, a: V, b: V)
    ensures map[k := a][k := b] == map[k := b]
  {
  }

  lemma IsEmitted(n: Node, leader: Node, r: Req, known: ShardMap, s: Net)
    requires known.OwnerAt(r.cell) == Some(n) && s == Stage(n, leader, r, multiset{}, [], []).(emitted := map[])
    ensures Initial(s) && Enabled(SAFE, s, Emit(r, Some(known), 1))
    ensures Delivery.After(SAFE, s, Emit(r, Some(known), 1)) == Stage(n, leader, r, multiset{ToWorker(n, r)}, [], [])
  {
    OneId(r);
    assert Publish(multiset{}, ToWorker(n, r), 1) == multiset{ToWorker(n, r)};
  }

  lemma IsReceived(n: Node, leader: Node, r: Req)
    ensures Delivery.After(SAFE, Stage(n, leader, r, multiset{ToWorker(n, r)}, [], []), Event.Receive(ToWorker(n, r)))
         == Stage(n, leader, r, multiset{}, [r], [])
  {
    OneId(r);
    assert multiset{ToWorker(n, r)} - multiset{ToWorker(n, r)} == multiset{};
    assert WorkQueue.Receive(Queue([], Ids([]), {}), r) == Queue([r], Ids([r]), {}) by {
      assert [] + [r] == [r] && {} + {r.id} == {r.id};
    }
    OneEntry(n, Queue([], Ids([]), {}), Queue([r], Ids([r]), {}));
  }

  lemma IsSpilled(n: Node, leader: Node, r: Req)
    ensures Enabled(SAFE, Stage(n, leader, r, multiset{}, [r], []), Spill(n, [leader]))
    ensures Delivery.After(SAFE, Stage(n, leader, r, multiset{}, [r], []), Spill(n, [leader]))
         == Stage(n, leader, r, multiset{ToCoordinator(leader, r)}, [], [])
  {
    OneId(r);
    assert multiset([leader]) == multiset{leader};
    assert DropLast(Queue([r], Ids([r]), {})) == Queue([], Ids([]), {}) by {
      assert [r][..0] == [] && {r.id} - {r.id} == {};
    }
    OneEntry(n, Queue([r], Ids([r]), {}), Queue([], Ids([]), {}));
    FanOutIs(multiset{}, r, [leader]);
    assert FanOut(multiset{}, r, [leader]) == multiset{ToCoordinator(leader, r)};
  }

  lemma IsCollected(n: Node, leader: Node, r: Req)
    ensures Delivery.After(SAFE, Stage(n, leader, r, multiset{ToCoordinator(leader, r)}, [], []),
                           Collect(ToCoordinator(leader, r)))
         == Stage(n, leader, r, multiset{}, [], [r])
  {
    assert multiset{ToCoordinator(leader, r)} - multiset{ToCoordinator(leader, r)} == multiset{};
    assert [] + [r] == [r];
    OneEntry(leader, [], [r]);
  }

  lemma IsDropped(n: Node, leader: Node, r: Req, other: ShardMap)
    requires other.OwnerAt(r.cell).None?
    ensures Delivery.After(SAFE, Stage(n, leader, r, multiset{}, [], [r]), Reinject(leader, other, 1))
         == Stage(n, leader, r, multiset{}, [], [])
    ensures !Present(Stage(n, leader, r, multiset{}, [], []), leader, r.id)
  {
    OneId(r);
    assert [r][1..] == [];
  }

  /** A request that is spilled to a coordinator whose map does not own its cell is gone: it is nowhere, and nobody
      has decided it, although the bus loses nothing. */
  lemma UnownedSpillVanishes(n: Node, leader: Node, r: Req, known: ShardMap, other: ShardMap)
    returns (run: seq<Net>, events: seq<Event>)
    requires known.OwnerAt(r.cell) == Some(n) && other.OwnerAt(r.cell).None?
    ensures Run(SAFE, run, events) && leader in run[0].spills
    ensures r.id in run[|events|].emitted && !Present(run[|events|], leader, r.id)
  {
    var start := Stage(n, leader, r, multiset{}, [], []).(emitted := map[]);
    IsEmitted(n, leader, r, known, start);
    run, events := RunOn([start], [], Emit(r, Some(known), 1));
    IsReceived(n, leader, r);
    run, events := RunOn(run, events, Event.Receive(ToWorker(n, r)));
    IsSpilled(n, leader, r);
    run, events := RunOn(run, events, Spill(n, [leader]));
    IsCollected(n, leader, r);
    run, events := RunOn(run, events, Collect(ToCoordinator(leader, r)));
    IsDropped(n, leader, r, other);
    run, events := RunOn(run, events, Reinject(leader, other, 1));
  }

  /** One more event. */
  lemma RunOn(run: seq<Net>, events: seq<Event>, e: Event) returns (run': seq<Net>, events': seq<Event>)
    requires Run(SAFE, run, events) && Enabled(SAFE, run[|events|], e)
    ensures Run(SAFE, run', events') && run'[0] == run[0]
    ensures |events'| == |events| + 1 && run'[|events'|] == Delivery.After(SAFE, run[|events|], e)
  {
    run', events' := run + [Delivery.After(SAFE, run[|events|], e)], events + [e];
    forall i | 0 <= i < |events'|
      ensures Enabled(SAFE, run'[i], events'[i]) && run'[i + 1] == Delivery.After(SAFE, run'[i], events'[i])
    {
      if i < |events| {
        assert run'[i] == run[i] && events'[i] == events[i] && run'[i + 1] == run[i + 1];
      }
    }
  }
}
