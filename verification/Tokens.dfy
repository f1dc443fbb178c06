/** Without duplicate messages and with one coordinator a request is a token: it is in at most one
    place, whatever shard maps the actors see and whatever is lost or killed. */
module Tokens {
  import opened Models
  import opened Sharding
  import opened WorkQueue
  import opened Delivery

  datatype Place =
    | Buffered
    | Flying(packet: Packet)
    | Queued(worker: Node)
    | Held(coordinator: Node)
    | Finished
    | Gone

  /** All of these requests are at place `p`, each once. */
  predicate AllAt(at: map<int, Place>, rs: seq<Req>, p: Place) {
    Unrepeated(rs) && forall i :: 0 <= i < |rs| ==> rs[i].id in at && at[rs[i].id] == p
  }

  /** `at` says where each emitted request is, and it is nowhere else. */
  ghost predicate Placed(s: Net, at: map<int, Place>) {
    match s
    case Net(emitted, buffer, flight, queues, _, spills, decisions) =>
      && at.Keys == emitted.Keys
      && AllAt(at, buffer, Buffered)
      && (forall p :: p in flight ==> flight[p] == 1 && p.req.id in at && at[p.req.id] == Flying(p))
      && (forall n :: n in queues ==> AllAt(at, queues[n].pending, Queued(n)))
      && (forall c :: c in spills ==> AllAt(at, spills[c], Held(c)))
      && (forall id :: id in decisions ==> decisions[id] == 1 && id in at && at[id] == Finished)
  }

  /** The request just taken out of its place. */
  ghost predicate InHand(s: Net, at: map<int, Place>, id: int) {
    && id in s.emitted
    && at.Keys == s.emitted.Keys - {id}
    && Placed(s.(emitted := s.emitted - {id}), at)
  }

  lemma TailAt(at: map<int, Place>, rs: seq<Req>, q: Place)
    requires AllAt(at, rs, q) && rs != []
    ensures AllAt(at - {rs[0].id}, rs[1..], q)
  {
    forall i | 0 <= i < |rs| - 1 ensures rs[1..][i].id != rs[0].id {
      assert rs[0].id != rs[i + 1].id;
    }
    forall i, j | 0 <= i < j < |rs| - 1 ensures rs[1..][i].id != rs[1..][j].id {
      assert rs[i + 1].id != rs[j + 1].id;
    }
  }

  lemma FrontAt(at: map<int, Place>, rs: seq<Req>, q: Place)
    requires AllAt(at, rs, q) && rs != []
    ensures AllAt(at - {rs[|rs| - 1].id}, rs[..|rs| - 1], q)
  {
  }

  lemma SnocAt(at: map<int, Place>, rs: seq<Req>, r: Req, q: Place)
    requires AllAt(at, rs, q) && r.id !in at
    ensures AllAt(at[r.id := q], rs + [r], q)
  {
  }

  // ---------------------------------------------------------------- putting a request down

  lemma PutInBuffer(s: Net, at: map<int, Place>, r: Req) returns (at': map<int, Place>)
    requires InHand(s, at, r.id)
    ensures Placed(s.(buffer := s.buffer + [r]), at')
  {
    at' := at[r.id := Buffered];
    SnocAt(at, s.buffer, r, Buffered);
  }

  lemma PutInFlight(s: Net, at: map<int, Place>, p: Packet, copies: nat) returns (at': map<int, Place>)
    requires InHand(s, at, p.req.id) && copies <= 1
    ensures Placed(s.(flight := Publish(s.flight, p, copies)), at')
  {
    if copies == 0 {
      assert Publish(s.flight, p, copies) == s.flight;
      at' := PutDown(s, at, p.req.id, false);
    } else {
      at' := PutOneInFlight(s, at, p);
    }
  }

  lemma PutOneInFlight(s: Net, at: map<int, Place>, p: Packet) returns (at': map<int, Place>)
    requires InHand(s, at, p.req.id)
    ensures Placed(s.(flight := Publish(s.flight, p, 1)), at')
  {
    at' := at[p.req.id := Flying(p)];
    assert p !in s.flight;
    assert forall x :: x in Publish(s.flight, p, 1) ==> x == p || x in s.flight;
  }

  lemma PutInQueue(s: Net, at: map<int, Place>, r: Req, n: Node) returns (at': map<int, Place>)
    requires InHand(s, at, r.id) && n in s.queues
    ensures Placed(s.(queues := s.queues[n := WorkQueue.Receive(s.queues[n], r)]), at')
  {
    var seen := r.id in s.queues[n].seen;
    at' := at[r.id := if seen then Gone else Queued(n)];
    SnocAt(at, s.queues[n].pending, r, Queued(n));
  }

  lemma PutInHold(s: Net, at: map<int, Place>, r: Req, c: Node) returns (at': map<int, Place>)
    requires InHand(s, at, r.id) && c in s.spills
    ensures Placed(s.(spills := s.spills[c := s.spills[c] + [r]]), at')
  {
    at' := at[r.id := Held(c)];
    SnocAt(at, s.spills[c], r, Held(c));
  }

  lemma PutDown(s: Net, at: map<int, Place>, id: int, decided: bool) returns (at': map<int, Place>)
    requires InHand(s, at, id)
    ensures Placed(if decided then s.(decisions := s.decisions + multiset{id}) else s, at')
  {
    at' := at[id := if decided then Finished else Gone];
    assert id !in s.decisions;
  }

  // ---------------------------------------------------------------- picking a request up

  lemma PickNew(s: Net, at: map<int, Place>, r: Req)
    requires Placed(s, at) && r.id !in s.emitted
    ensures InHand(s.(emitted := s.emitted[r.id := r]), at, r.id)
  {
    assert s.emitted[r.id := r] - {r.id} == s.emitted;
  }

  lemma PickBuffered(s: Net, at: map<int, Place>)
    requires Placed(s, at) && s.buffer != []
    ensures InHand(s.(buffer := s.buffer[1..]), at - {s.buffer[0].id}, s.buffer[0].id)
  {
    TailAt(at, s.buffer, Buffered);
  }

  lemma PickFlying(s: Net, at: map<int, Place>, p: Packet)
    requires Placed(s, at) && p in s.flight
    ensures InHand(s.(flight := s.flight - multiset{p}), at - {p.req.id}, p.req.id)
  {
    var t := s.(flight := s.flight - multiset{p});
    forall x | x in t.flight ensures x in s.flight && x.req.id != p.req.id && t.flight[x] == s.flight[x] {
      assert x != p;
      assert at[x.req.id] == Flying(x) && at[p.req.id] == Flying(p);
    }
    OthersUntouched(s, at, p.req.id, Flying(p));
  }

  /** Lists that hold requests of another place do not miss the one picked up. */
  lemma OthersUntouched(s: Net, at: map<int, Place>, id: int, p: Place)
    requires Placed(s, at) && id in at && at[id] == p
    ensures p != Buffered ==> AllAt(at - {id}, s.buffer, Buffered)
    ensures forall n :: n in s.queues && p != Queued(n) ==> AllAt(at - {id}, s.queues[n].pending, Queued(n))
    ensures forall c :: c in s.spills && p != Held(c) ==> AllAt(at - {id}, s.spills[c], Held(c))
    ensures !p.Flying? ==> forall x :: x in s.flight ==> x.req.id != id
    ensures p != Finished ==> id !in s.decisions
  {
  }

  lemma PickedQueued(s: Net, at: map<int, Place>, n: Node, q: Queue, id: int)
    requires Placed(s, at) && n in s.queues && id in at && at[id] == Queued(n)
    requires AllAt(at - {id}, q.pending, Queued(n))
    ensures InHand(s.(queues := s.queues[n := q]), at - {id}, id)
  {
    OthersUntouched(s, at, id, Queued(n));
  }

  lemma PickQueued(s: Net, at: map<int, Place>, n: Node, q: Queue, r: Req)
    requires Placed(s, at) && n in s.queues && s.queues[n].pending != []
    requires || (r == s.queues[n].pending[0] && q.pending == s.queues[n].pending[1..])
             || (r == s.queues[n].pending[|s.queues[n].pending| - 1]
                 && q.pending == s.queues[n].pending[..|s.queues[n].pending| - 1])
    ensures InHand(s.(queues := s.queues[n := q]), at - {r.id}, r.id)
  {
    if q.pending == s.queues[n].pending[1..] && r == s.queues[n].pending[0] {
      TailAt(at, s.queues[n].pending, Queued(n));
    } else {
      FrontAt(at, s.queues[n].pending, Queued(n));
    }
    PickedQueued(s, at, n, q, r.id);
  }

  lemma PickHeld(s: Net, at: map<int, Place>, c: Node)
    requires Placed(s, at) && c in s.spills && s.spills[c] != []
    ensures InHand(s.(spills := s.spills[c := s.spills[c][1..]]), at - {s.spills[c][0].id}, s.spills[c][0].id)
  {
    TailAt(at, s.spills[c], Held(c));
  }

  // ---------------------------------------------------------------- every event moves at most one token

  /** There is at most one coordinator. */
  predicate OneCoordinator(s: Net) {
    forall a, b :: a in s.spills && b in s.spills ==> a == b
  }

  lemma RoutedPlaced(s: Net, at: map<int, Place>, r: Req, view: Option<ShardMap>, copies: nat) returns (at': map<int, Place>)
    requires InHand(s, at, r.id) && copies <= 1
    ensures Placed(Routed(s, r, view, copies), at')
  {
    var owner := KnownOwner(view, r.cell);
    if owner.None? {
      at' := PutInBuffer(s, at, r);
    } else {
      at' := PutInFlight(s, at, ToWorker(owner.value, r), copies);
    }
  }

  lemma ProcessPlaced(bus: Bus, s: Net, at: map<int, Place>, n: Node, view: Option<ShardMap>, copies: nat)
    returns (at': map<int, Place>)
    requires Placed(s, at) && !bus.duplicates && Enabled(bus, s, Process(n, view, copies))
    ensures Placed(After(bus, s, Process(n, view, copies)), at')
  {
    var r := s.queues[n].pending[0];
    var q := ProcessFirst(s.queues[n], n, view);
    var t := s.(queues := s.queues[n := q]);
    PickQueued(s, at, n, q, r);
    if FateOf(n, r, view).Kept? {
      at' := PutDown(t, at - {r.id}, r.id, true);
    } else {
      at' := PutInFlight(t, at - {r.id}, ToWorker(FateOf(n, r, view).to, r), copies);
    }
  }

  lemma SameTwice(to: seq<Node>)
    requires |to| > 1 && to[0] == to[1]
    ensures multiset(to)[to[0]] >= 2
  {
    assert to == [to[0], to[1]] + to[2..];
  }

  lemma FirstTwo(to: seq<Node>)
    requires |to| > 1
    ensures to[0] in multiset(to) && to[1] in multiset(to)
  {
  }

  /** With one coordinator and no duplicates, a spilled request goes to one place at most. */
  lemma OneCopy(bus: Bus, s: Net, n: Node, to: seq<Node>)
    requires !bus.duplicates && OneCoordinator(s) && Enabled(bus, s, Spill(n, to))
    ensures |to| <= 1
  {
    if |to| > 1 {
      FirstTwo(to);
      SameTwice(to);
    }
  }

  lemma PutSpilled(s: Net, at: map<int, Place>, r: Req, to: seq<Node>) returns (at': map<int, Place>)
    requires InHand(s, at, r.id) && |to| <= 1
    ensures Placed(s.(flight := FanOut(s.flight, r, to)), at')
  {
    if to == [] {
      at' := PutDown(s, at, r.id, false);
    } else {
      at' := PutOneInFlight(s, at, ToCoordinator(to[0], r));
      assert to[1..] == [];
    }
  }

  lemma SpillPlaced(bus: Bus, s: Net, at: map<int, Place>, n: Node, to: seq<Node>) returns (at': map<int, Place>)
    requires Placed(s, at) && !bus.duplicates && OneCoordinator(s) && Enabled(bus, s, Spill(n, to))
    ensures Placed(After(bus, s, Spill(n, to)), at')
  {
    OneCopy(bus, s, n, to);
    var q := s.queues[n];
    var r := q.pending[|q.pending| - 1];
    PickQueued(s, at, n, DropLast(q), r);
    at' := PutSpilled(s.(queues := s.queues[n := DropLast(q)]), at - {r.id}, r, to);
  }

  lemma EmitPlaced(bus: Bus, s: Net, at: map<int, Place>, r: Req, view: Option<ShardMap>, copies: nat)
    returns (at': map<int, Place>)
    requires Placed(s, at) && !bus.duplicates && Enabled(bus, s, Emit(r, view, copies))
    ensures Placed(After(bus, s, Emit(r, view, copies)), at')
  {
    PickNew(s, at, r);
    at' := RoutedPlaced(s.(emitted := s.emitted[r.id := r]), at, r, view, copies);
  }

  lemma FlushPlaced(bus: Bus, s: Net, at: map<int, Place>, view: Option<ShardMap>, copies: nat)
    returns (at': map<int, Place>)
    requires Placed(s, at) && !bus.duplicates && Enabled(bus, s, Flush(view, copies))
    ensures Placed(After(bus, s, Flush(view, copies)), at')
  {
    PickBuffered(s, at);
    at' := RoutedPlaced(s.(buffer := s.buffer[1..]), at - {s.buffer[0].id}, s.buffer[0], view, copies);
  }

  /** A message arrives, or is lost. */
  lemma LandPlaced(bus: Bus, s: Net, at: map<int, Place>, e: Event) returns (at': map<int, Place>)
    requires Placed(s, at) && Enabled(bus, s, e) && (e.Receive? || e.Collect? || e.Lose?)
    ensures Placed(After(bus, s, e), at')
  {
    var p := e.packet;
    var t := s.(flight := s.flight - multiset{p});
    PickFlying(s, at, p);
    if e.Receive? {
      at' := PutInQueue(t, at - {p.req.id}, p.req, p.node);
    } else if e.Collect? {
      at' := PutInHold(t, at - {p.req.id}, p.req, p.node);
    } else {
      at' := PutDown(t, at - {p.req.id}, p.req.id, false);
    }
  }

  /** Workers and coordinators come and go. */
  lemma ChurnPlaced(bus: Bus, s: Net, at: map<int, Place>, e: Event)
    requires Placed(s, at) && Enabled(bus, s, e) && (e.KillWorker? || e.KillCoordinator? || e.JoinWorker?)
    ensures Placed(After(bus, s, e), at)
  {
    match e
    case KillWorker(n) => KillPlaced(bus, s, at, n);
    case KillCoordinator(c) => DropPlaced(bus, s, at, c);
    case JoinWorker(n) => JoinPlaced(bus, s, at, n);
  }

  lemma KillPlaced(bus: Bus, s: Net, at: map<int, Place>, n: Node)
    requires Placed(s, at) && Enabled(bus, s, KillWorker(n))
    ensures Placed(After(bus, s, KillWorker(n)), at)
  {
  }

  lemma DropPlaced(bus: Bus, s: Net, at: map<int, Place>, c: Node)
    requires Placed(s, at) && Enabled(bus, s, KillCoordinator(c))
    ensures Placed(After(bus, s, KillCoordinator(c)), at)
  {
  }

  lemma JoinPlaced(bus: Bus, s: Net, at: map<int, Place>, n: Node)
    requires Placed(s, at) && Enabled(bus, s, JoinWorker(n))
    ensures Placed(After(bus, s, JoinWorker(n)), at)
  {
    var t := After(bus, s, JoinWorker(n));
    forall k | k in t.queues ensures AllAt(at, t.queues[k].pending, Queued(k)) {
      if k == n {
        NobodyAt(at, Queued(n));
      }
    }
  }

  lemma NobodyAt(at: map<int, Place>, p: Place)
    ensures AllAt(at, [], p)
  {
  }

  lemma ReinjectPlaced(bus: Bus, s: Net, at: map<int, Place>, c: Node, m: ShardMap, copies: nat)
    returns (at': map<int, Place>)
    requires Placed(s, at) && !bus.duplicates && Enabled(bus, s, Reinject(c, m, copies))
    ensures Placed(After(bus, s, Reinject(c, m, copies)), at')
  {
    var r := s.spills[c][0];
    var t := s.(spills := s.spills[c := s.spills[c][1..]]);
    PickHeld(s, at, c);
    var owner := KnownOwner(Some(m), r.cell);
    if owner.None? {
      at' := PutDown(t, at - {r.id}, r.id, false);
    } else {
      at' := PutInFlight(t, at - {r.id}, ToWorker(owner.value, r), copies);
    }
  }

  lemma StepPlaced(bus: Bus, s: Net, at: map<int, Place>, e: Event) returns (at': map<int, Place>)
    requires Placed(s, at) && !bus.duplicates && OneCoordinator(s) && Enabled(bus, s, e)
    ensures Placed(After(bus, s, e), at')
  {
    match e
    case Emit(r, view, copies) => at' := EmitPlaced(bus, s, at, r, view, copies);
    case Flush(view, copies) => at' := FlushPlaced(bus, s, at, view, copies);
    case Receive(p) => at' := LandPlaced(bus, s, at, e);
    case Collect(p) => at' := LandPlaced(bus, s, at, e);
    case Lose(p) => at' := LandPlaced(bus, s, at, e);
    case Process(n, view, copies) => at' := ProcessPlaced(bus, s, at, n, view, copies);
    case Spill(n, to) => at' := SpillPlaced(bus, s, at, n, to);
    case Reinject(c, m, copies) => at' := ReinjectPlaced(bus, s, at, c, m, copies);
    case KillWorker(n) =>
      ChurnPlaced(bus, s, at, e);
      at' := at;
    case KillCoordinator(c) =>
      ChurnPlaced(bus, s, at, e);
      at' := at;
    case JoinWorker(n) =>
      ChurnPlaced(bus, s, at, e);
      at' := at;
  }

  lemma CoordinatorsOnlyDie(bus: Bus, s: Net, e: Event)
    requires OneCoordinator(s) && Enabled(bus, s, e)
    ensures OneCoordinator(After(bus, s, e))
  {
    assert forall c :: c in After(bus, s, e).spills ==> c in s.spills;
  }

  lemma {:induction false} AlwaysPlaced(bus: Bus, run: seq<Net>, events: seq<Event>, i: nat) returns (at: map<int, Place>)
    requires Run(bus, run, events) && i < |run| && !bus.duplicates && OneCoordinator(run[0])
    ensures Placed(run[i], at) && OneCoordinator(run[i])
  {
    if i == 0 {
      at := map[];
    } else {
      at := AlwaysPlaced(bus, run, events, i - 1);
      at := StepPlaced(bus, run[i - 1], at, events[i - 1]);
      CoordinatorsOnlyDie(bus, run[i - 1], events[i - 1]);
    }
  }

  /** Without duplicates and with one coordinator no request is decided twice, however shard maps
      change and disagree, and whatever is lost or killed; a decided request is nowhere else. */
  lemma DecidedOnceWithoutDuplicates(bus: Bus, run: seq<Net>, events: seq<Event>, i: nat, id: int)
    requires Run(bus, run, events) && i < |run| && !bus.duplicates && OneCoordinator(run[0])
    ensures run[i].decisions[id] <= 1
    ensures id in run[i].decisions ==>
              && id !in Ids(run[i].buffer)
              && (forall p :: p in run[i].flight ==> p.req.id != id)
              && (forall n :: n in run[i].queues ==> id !in Ids(run[i].queues[n].pending))
              && (forall c :: c in run[i].spills ==> id !in Ids(run[i].spills[c]))
  {
    var at := AlwaysPlaced(bus, run, events, i);
  }
}
