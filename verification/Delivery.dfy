/** The way of a request through the cluster (gateway.py, `_route` and `_flush_buffer`; worker.py,
    `_ingest`, `_process_batch`, `_reroute` and `_maybe_spill`; coordinator.py, `_ingest` and
    `_reinject_spill`), over a bus that may delay, reorder, duplicate and lose messages. */
module Delivery {
  import opened Models
  import opened Sharding
  import opened WorkQueue

  datatype Packet = ToWorker(node: Node, req: Req) | ToCoordinator(node: Node, req: Req)

  /** `decisions` counts, over the whole cluster, how often each request was assigned or rejected.
      `retired` are the workers that have been killed. */
  datatype Net = Net(
    emitted: map<int, Req>,
    buffer: seq<Req>,
    flight: multiset<Packet>,
    queues: map<Node, Queue>,
    retired: set<Node>,
    spills: map<Node, seq<Req>>,
    decisions: multiset<int>)

  /** What the bus may do. */
  datatype Bus = Bus(loses: bool, duplicates: bool)

  /** How many copies of a message a receiver may get. */
  predicate Copies(bus: Bus, n: nat) {
    (bus.loses || n >= 1) && n <= (if bus.duplicates then 2 else 1)
  }

  /** The views in the events are the shard maps the actor knows at that moment. */
  datatype Event =
    | Emit(req: Req, view: Option<ShardMap>, copies: nat)
    | Flush(view: Option<ShardMap>, copies: nat)
    | Receive(packet: Packet)
    | Collect(packet: Packet)
    | Lose(packet: Packet)
    | Process(worker: Node, view: Option<ShardMap>, copies: nat)
    | Spill(worker: Node, to: seq<Node>)
    | Reinject(coordinator: Node, map_: ShardMap, copies: nat)
    | KillWorker(worker: Node)
    | KillCoordinator(coordinator: Node)
    | JoinWorker(worker: Node)

  function Publish(flight: multiset<Packet>, p: Packet, copies: nat): multiset<Packet> {
    flight[p := flight[p] + copies]
  }

  /** A spilled request goes to every coordinator; `to` lists the copies that get through. */
  function FanOut(flight: multiset<Packet>, r: Req, to: seq<Node>): multiset<Packet>
    decreases |to|
  {
    if to == [] then flight else FanOut(Publish(flight, ToCoordinator(to[0], r), 1), r, to[1..])
  }

  predicate Enabled(bus: Bus, s: Net, e: Event) {
    match e
    case Emit(r, _, copies) => r.id !in s.emitted && Copies(bus, copies)
    case Flush(_, copies) => s.buffer != [] && Copies(bus, copies)
    case Receive(p) => p in s.flight && p.ToWorker? && p.node in s.queues
    case Collect(p) => p in s.flight && p.ToCoordinator? && p.node in s.spills
    case Lose(p) => p in s.flight && bus.loses
    case Process(n, _, copies) => n in s.queues && s.queues[n].pending != [] && Copies(bus, copies)
    case Spill(n, to) =>
      && n in s.queues && s.queues[n].pending != []
      && (forall c :: c in multiset(to) ==> c in s.spills)
      && (forall c :: c in s.spills ==> Copies(bus, multiset(to)[c]))
    case Reinject(c, _, copies) => c in s.spills && s.spills[c] != [] && Copies(bus, copies)
    case KillWorker(n) => n in s.queues && bus.loses
    case KillCoordinator(c) => c in s.spills && bus.loses
    case JoinWorker(n) => n !in s.queues && n !in s.retired
  }

  /** `_route`: to the owner of the cell, or into the buffer if none is known. */
  function Routed(s: Net, r: Req, view: Option<ShardMap>, copies: nat): Net {
    var owner := KnownOwner(view, r.cell);
    if owner.None? then s.(buffer := s.buffer + [r])
    else s.(flight := Publish(s.flight, ToWorker(owner.value, r), copies))
  }

  function After(bus: Bus, s: Net, e: Event): Net
    requires Enabled(bus, s, e)
  {
    match e
    case Emit(r, view, copies) => Routed(s.(emitted := s.emitted[r.id := r]), r, view, copies)
    case Flush(view, copies) => Routed(s.(buffer := s.buffer[1..]), s.buffer[0], view, copies)
    case Receive(p) =>
      s.(flight := s.flight - multiset{p}, queues := s.queues[p.node := WorkQueue.Receive(s.queues[p.node], p.req)])
    case Collect(p) =>
      s.(flight := s.flight - multiset{p}, spills := s.spills[p.node := s.spills[p.node] + [p.req]])
    case Lose(p) => s.(flight := s.flight - multiset{p})
    case Process(n, view, copies) =>
      var r := s.queues[n].pending[0];
      var t := s.(queues := s.queues[n := ProcessFirst(s.queues[n], n, view)]);
      (match FateOf(n, r, view)
       case Kept => t.(decisions := s.decisions + multiset{r.id})
       case Rerouted(to) => t.(flight := Publish(s.flight, ToWorker(to, r), copies)))
    case Spill(n, to) =>
      var q := s.queues[n];
      s.(queues := s.queues[n := DropLast(q)], flight := FanOut(s.flight, q.pending[|q.pending| - 1], to))
    case Reinject(c, m, copies) =>
      var r := s.spills[c][0];
      var owner := KnownOwner(Some(m), r.cell);
      var t := s.(spills := s.spills[c := s.spills[c][1..]]);
      if owner.None? then t else t.(flight := Publish(s.flight, ToWorker(owner.value, r), copies))
    case KillWorker(n) => s.(queues := s.queues - {n}, retired := s.retired + {n})
    case KillCoordinator(c) => s.(spills := s.spills - {c})
    case JoinWorker(n) => s.(queues := s.queues[n := Queue([], {}, {})])
  }

  /** Nothing has been emitted yet. */
  predicate Initial(s: Net) {
    && s.emitted == map[] && s.buffer == [] && s.flight == multiset{} && s.retired == {} && s.decisions == multiset{}
    && (forall n :: n in s.queues ==> s.queues[n] == Queue([], {}, {}))
    && (forall c :: c in s.spills ==> s.spills[c] == [])
  }

  ghost predicate Run(bus: Bus, run: seq<Net>, events: seq<Event>) {
    && |run| == |events| + 1 && Initial(run[0])
    && forall i :: 0 <= i < |events| ==> Enabled(bus, run[i], events[i]) && run[i + 1] == After(bus, run[i], events[i])
  }

  lemma {:induction false} FanOutIs(flight: multiset<Packet>, r: Req, to: seq<Node>)
    ensures forall p :: FanOut(flight, r, to)[p] ==
                        flight[p] + if p.ToCoordinator? && p.req == r then multiset(to)[p.node] else 0
    decreases |to|
  {
    if to != [] {
      FanOutIs(Publish(flight, ToCoordinator(to[0], r), 1), r, to[1..]);
      assert to == [to[0]] + to[1..];
    }
  }

  /** The view an event acts on. */
  function ViewOf(e: Event): Option<ShardMap> {
    match e
    case Emit(_, view, _) => view
    case Flush(view, _) => view
    case Process(_, view, _) => view
    case Reinject(_, m, _) => Some(m)
    case _ => None
  }

  // ---------------------------------------------------------------- one shard map

  /** `r` is a request as emitted, and node `n` owns its cell. */
  predicate Owns(m: ShardMap, s: Net, n: Node, r: Req) {
    r.id in s.emitted && s.emitted[r.id] == r && KnownOwner(Some(m), r.cell) == Some(n)
  }

  predicate Known(s: Net, r: Req) {
    r.id in s.emitted && s.emitted[r.id] == r
  }

  /** With one shard map, only the owner of a cell ever works on its requests. */
  ghost predicate FixedInv(m: ShardMap, s: Net) {
    && (forall i :: 0 <= i < |s.buffer| ==> Known(s, s.buffer[i]))
    && (forall p :: p in s.flight ==> Known(s, p.req) && (p.ToWorker? ==> Owns(m, s, p.node, p.req)))
    && (forall n, i :: n in s.queues && 0 <= i < |s.queues[n].pending| ==> Owns(m, s, n, s.queues[n].pending[i]))
    && (forall n :: n in s.queues ==> QueueOk(s.queues[n]) && n !in s.retired)
    && (forall c, i :: c in s.spills && 0 <= i < |s.spills[c]| ==> Known(s, s.spills[c][i]))
    && (forall id :: id in s.decisions ==> DecidedOnce(m, s, id))
  }

  /** The decision on a request was taken by the owner of its cell, and is remembered there. */
  predicate DecidedOnce(m: ShardMap, s: Net, id: int) {
    && s.decisions[id] <= 1 && id in s.emitted
    && var n := KnownOwner(Some(m), s.emitted[id].cell);
       n.Some? && (n.value in s.retired || (n.value in s.queues && id in s.queues[n.value].decided))
  }

  /** Every actor that has a view has the map `m`. */
  predicate SeesOnly(m: ShardMap, e: Event) {
    ViewOf(e).Some? ==> ViewOf(e).value.cellOwner == m.cellOwner
  }

  lemma RoutedFixed(m: ShardMap, s: Net, r: Req, view: Option<ShardMap>, copies: nat)
    requires FixedInv(m, s) && Known(s, r) && (view.Some? ==> view.value.cellOwner == m.cellOwner)
    ensures FixedInv(m, Routed(s, r, view, copies))
  {
    var t := Routed(s, r, view, copies);
    forall p | p in t.flight ensures Known(t, p.req) && (p.ToWorker? ==> Owns(m, t, p.node, p.req)) {
      if p !in s.flight {
        assert p == ToWorker(KnownOwner(view, r.cell).value, r);
      }
    }
    forall id | id in t.decisions ensures DecidedOnce(m, t, id) {
      assert DecidedOnce(m, s, id);
    }
  }

  lemma EmitFixed(m: ShardMap, bus: Bus, s: Net, r: Req, view: Option<ShardMap>, copies: nat)
    requires FixedInv(m, s) && Enabled(bus, s, Emit(r, view, copies)) && SeesOnly(m, Emit(r, view, copies))
    ensures FixedInv(m, After(bus, s, Emit(r, view, copies)))
  {
    var t := s.(emitted := s.emitted[r.id := r]);
    forall id | id in t.decisions ensures DecidedOnce(m, t, id) {
      assert DecidedOnce(m, s, id);
    }
    RoutedFixed(m, t, r, view, copies);
  }

  lemma FlushFixed(m: ShardMap, bus: Bus, s: Net, view: Option<ShardMap>, copies: nat)
    requires FixedInv(m, s) && Enabled(bus, s, Flush(view, copies)) && SeesOnly(m, Flush(view, copies))
    ensures FixedInv(m, After(bus, s, Flush(view, copies)))
  {
    var t := s.(buffer := s.buffer[1..]);
    forall id | id in t.decisions ensures DecidedOnce(m, t, id) {
      assert DecidedOnce(m, s, id);
    }
    RoutedFixed(m, t, s.buffer[0], view, copies);
  }

  lemma ReceiveFixed(m: ShardMap, bus: Bus, s: Net, p: Packet)
    requires FixedInv(m, s) && Enabled(bus, s, Receive(p))
    ensures FixedInv(m, After(bus, s, Receive(p)))
  {
    var t := After(bus, s, Receive(p));
    ReceiveOk(s.queues[p.node], p.req);
    forall id | id in t.decisions ensures DecidedOnce(m, t, id) {
      assert DecidedOnce(m, s, id);
    }
  }

  lemma CollectFixed(m: ShardMap, bus: Bus, s: Net, p: Packet)
    requires FixedInv(m, s) && Enabled(bus, s, Collect(p))
    ensures FixedInv(m, After(bus, s, Collect(p)))
  {
    var t := After(bus, s, Collect(p));
    forall id | id in t.decisions ensures DecidedOnce(m, t, id) {
      assert DecidedOnce(m, s, id);
    }
  }

  /** The owner of a cell decides on a request only if nobody has. */
  lemma ProcessFixed(m: ShardMap, bus: Bus, s: Net, n: Node, view: Option<ShardMap>, copies: nat)
    requires FixedInv(m, s) && Enabled(bus, s, Process(n, view, copies)) && SeesOnly(m, Process(n, view, copies))
    ensures FixedInv(m, After(bus, s, Process(n, view, copies)))
  {
    var t := After(bus, s, Process(n, view, copies));
    var r := s.queues[n].pending[0];
    assert Owns(m, s, n, r);
    assert FateOf(n, r, view).Kept?;
    ProcessOk(s.queues[n], n, view);
    forall id | id in t.decisions ensures DecidedOnce(m, t, id) {
      if id in s.decisions {
        assert DecidedOnce(m, s, id);
      }
    }
  }

  lemma SpillFixed(m: ShardMap, bus: Bus, s: Net, n: Node, to: seq<Node>)
    requires FixedInv(m, s) && Enabled(bus, s, Spill(n, to))
    ensures FixedInv(m, After(bus, s, Spill(n, to)))
  {
    var t := After(bus, s, Spill(n, to));
    var q := s.queues[n];
    DropLastOk(q);
    FanOutIs(s.flight, q.pending[|q.pending| - 1], to);
    assert Owns(m, s, n, q.pending[|q.pending| - 1]);
    forall p | p in t.flight ensures Known(t, p.req) && (p.ToWorker? ==> Owns(m, t, p.node, p.req)) {
      assert p in s.flight || (p.ToCoordinator? && p.req == q.pending[|q.pending| - 1]);
    }
    forall id | id in t.decisions ensures DecidedOnce(m, t, id) {
      assert DecidedOnce(m, s, id);
      assert DropLast(q).decided == q.decided;
    }
  }

  lemma ReinjectFixed(m: ShardMap, bus: Bus, s: Net, c: Node, map_: ShardMap, copies: nat)
    requires FixedInv(m, s) && Enabled(bus, s, Reinject(c, map_, copies)) && SeesOnly(m, Reinject(c, map_, copies))
    ensures FixedInv(m, After(bus, s, Reinject(c, map_, copies)))
  {
    var t := After(bus, s, Reinject(c, map_, copies));
    var r := s.spills[c][0];
    forall p | p in t.flight ensures Known(t, p.req) && (p.ToWorker? ==> Owns(m, t, p.node, p.req)) {
      if p !in s.flight {
        assert p == ToWorker(KnownOwner(Some(map_), r.cell).value, r);
      }
    }
    forall id | id in t.decisions ensures DecidedOnce(m, t, id) {
      assert DecidedOnce(m, s, id);
    }
  }

  /** Losses, kills and joins. */
  lemma OthersFixed(m: ShardMap, bus: Bus, s: Net, e: Event)
    requires FixedInv(m, s) && Enabled(bus, s, e)
    requires e.Lose? || e.KillWorker? || e.KillCoordinator? || e.JoinWorker?
    ensures FixedInv(m, After(bus, s, e))
  {
    match e
    case KillWorker(n) => KillFixed(m, bus, s, n);
    case JoinWorker(n) => JoinFixed(m, bus, s, n);
    case Lose(p) => QuietFixed(m, s, After(bus, s, Lose(p)));
    case KillCoordinator(c) => QuietFixed(m, s, After(bus, s, KillCoordinator(c)));
  }

  lemma KillFixed(m: ShardMap, bus: Bus, s: Net, n: Node)
    requires FixedInv(m, s) && Enabled(bus, s, KillWorker(n))
    ensures FixedInv(m, After(bus, s, KillWorker(n)))
  {
    var t := After(bus, s, KillWorker(n));
    forall id | id in t.decisions ensures DecidedOnce(m, t, id) {
      assert DecidedOnce(m, s, id);
    }
  }

  lemma JoinFixed(m: ShardMap, bus: Bus, s: Net, n: Node)
    requires FixedInv(m, s) && Enabled(bus, s, JoinWorker(n))
    ensures FixedInv(m, After(bus, s, JoinWorker(n)))
  {
    var t := After(bus, s, JoinWorker(n));
    forall id | id in t.decisions ensures DecidedOnce(m, t, id) {
      assert DecidedOnce(m, s, id);
    }
  }

  /** Messages or spill buffers get lost. */
  lemma QuietFixed(m: ShardMap, s: Net, t: Net)
    requires FixedInv(m, s) && t == s.(flight := t.flight, spills := t.spills)
    requires forall p :: p in t.flight ==> p in s.flight
    requires forall c :: c in t.spills ==> c in s.spills && t.spills[c] == s.spills[c]
    ensures FixedInv(m, t)
  {
    forall id | id in t.decisions ensures DecidedOnce(m, t, id) {
      assert DecidedOnce(m, s, id);
    }
  }

  lemma StepFixed(m: ShardMap, bus: Bus, s: Net, e: Event)
    requires FixedInv(m, s) && Enabled(bus, s, e) && SeesOnly(m, e)
    ensures FixedInv(m, After(bus, s, e))
  {
    match e
    case Emit(r, view, copies) => EmitFixed(m, bus, s, r, view, copies);
    case Flush(view, copies) => FlushFixed(m, bus, s, view, copies);
    case Receive(p) => ReceiveFixed(m, bus, s, p);
    case Collect(p) => CollectFixed(m, bus, s, p);
    case Process(n, view, copies) => ProcessFixed(m, bus, s, n, view, copies);
    case Spill(n, to) => SpillFixed(m, bus, s, n, to);
    case Reinject(c, map_, copies) => ReinjectFixed(m, bus, s, c, map_, copies);
    case _ => OthersFixed(m, bus, s, e);
  }

  lemma {:induction false} AlwaysFixed(m: ShardMap, bus: Bus, run: seq<Net>, events: seq<Event>, i: nat)
    requires Run(bus, run, events) && i < |run|
    requires forall j :: 0 <= j < |events| ==> SeesOnly(m, events[j])
    ensures FixedInv(m, run[i])
  {
    if i > 0 {
      AlwaysFixed(m, bus, run, events, i - 1);
      StepFixed(m, bus, run[i - 1], events[i - 1]);
    }
  }

  /** As long as everybody has the same shard map, no request is decided twice, whatever the bus loses,
      duplicates or reorders, however often requests are spilled and to however many coordinators,
      and whoever is killed. */
  lemma DecidedOnceWithFixedMap(m: ShardMap, bus: Bus, run: seq<Net>, events: seq<Event>, i: nat, id: int)
    requires Run(bus, run, events) && i < |run|
    requires forall j :: 0 <= j < |events| ==> SeesOnly(m, events[j])
    ensures run[i].decisions[id] <= 1
  {
    AlwaysFixed(m, bus, run, events, i);
    if id in run[i].decisions {
      assert DecidedOnce(m, run[i], id);
    }
  }
}
