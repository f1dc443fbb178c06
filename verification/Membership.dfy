/** Failure detection by heartbeat (coordinator.py, `_ingest` and `_detect_failures`; worker.py,
    `run` and `_send_heartbeat`), as a timed protocol between the workers and one coordinator, on
    a bus that loses nothing but may delay, reorder and duplicate. */
module Membership {
  import opened Models

  // ---------------------------------------------------------------- what a coordinator knows

  datatype Health = Health(lastSeen: map<Node, real>, alive: set<Node>, down: set<Node>)

  /** Whether a heartbeat of `node` brings it into the cluster, or back. */
  predicate Joins(h: Health, node: Node) {
    node in h.down || node !in h.alive
  }

  /** The coordinator's view after a heartbeat of `node`. */
  function Hear(h: Health, node: Node, now: real): Health {
    Health(h.lastSeen[node := now], h.alive + {node}, h.down - {node})
  }

  function Silence(h: Health, w: Node, now: real): real {
    now - if w in h.lastSeen then h.lastSeen[w] else 0.0
  }

  function Overdue(h: Health, now: real, timeout: real): set<Node> {
    set w | w in h.alive && Silence(h, w, now) > timeout
  }

  /** The coordinator's view after `_detect_failures`. */
  function Declare(h: Health, now: real, timeout: real): Health {
    h.(alive := h.alive - Overdue(h, now, timeout), down := h.down + Overdue(h, now, timeout))
  }

  /** Heartbeats are handled in the order in which they arrived. */
  function HearAll(h: Health, inbox: seq<Node>, now: real): Health {
    if inbox == [] then h else Hear(HearAll(h, inbox[..|inbox| - 1], now), inbox[|inbox| - 1], now)
  }

  lemma {:induction false} HearAllIs(h: Health, inbox: seq<Node>, now: real)
    ensures var g := HearAll(h, inbox, now);
            && g.alive == h.alive + (set w | w in inbox)
            && g.down == h.down - (set w | w in inbox)
            && (forall w :: w in g.lastSeen <==> w in h.lastSeen || w in inbox)
            && (forall w :: w in g.lastSeen ==> g.lastSeen[w] == if w in inbox then now else h.lastSeen[w])
  {
    if inbox != [] {
      var front, last := inbox[..|inbox| - 1], inbox[|inbox| - 1];
      HearAllIs(h, front, now);
      assert inbox == front + [last];
      assert (set w | w in inbox) == (set w | w in front) + {last};
    }
  }

  // ---------------------------------------------------------------- the protocol

  datatype Timing = Timing(
    tick: real,         // how often the coordinator wakes up
    timeout: real,      // how long a silence it accepts
    workerTick: real,   // how often a worker wakes up
    interval: real,     // how long a worker waits between heartbeats
    base: real,         // the least latency, and the delay of a duplicate
    latency: real)      // the greatest latency
  {
    predicate Ok() {
      0.0 < tick && 0.0 < workerTick && 0.0 < interval && 0.0 <= base <= latency && 0.0 <= timeout
    }
  }

  datatype Worker = Worker(killedAt: Option<real>, nextTick: real, nextBeat: real)
  {
    predicate Alive() {
      killedAt.None?
    }
  }

  datatype Beat = Beat(node: Node, due: real)

  datatype System = System(
    now: real,
    nextTick: real,
    subscribed: bool,
    health: Health,
    inbox: seq<Node>,
    flight: multiset<Beat>,
    workers: map<Node, Worker>)

  datatype Event =
    | Wait(until: real)
    | WorkerTick(worker: Node, delay: real, duplicate: bool)
    | Deliver(beat: Beat)
    | CoordinatorTick(leads: bool)
    | Kill(worker: Node)
    | Join(worker: Node)

  /** Time passes no wake-up and no delivery; a duplicate arrives later than the original. */
  predicate Enabled(t: Timing, s: System, event: Event) {
    match event
    case Wait(until) =>
      && s.now <= until <= s.nextTick
      && (forall w :: w in s.workers && s.workers[w].Alive() ==> until <= s.workers[w].nextTick)
      && (forall b :: b in s.flight ==> until <= b.due)
    case WorkerTick(w, delay, _) =>
      && w in s.workers && s.workers[w].Alive() && s.workers[w].nextTick == s.now
      && t.base <= delay <= t.latency
    case Deliver(b) => b in s.flight && b.due == s.now
    case CoordinatorTick(_) => s.nextTick == s.now
    case Kill(w) => w in s.workers && s.workers[w].Alive()
    case Join(w) => w !in s.workers
  }

  /** Whether a worker that looks at time `now` sends a heartbeat, and when the next one is due after that. */
  predicate BeatDue(now: real, nextBeat: real) {
    now >= nextBeat
  }

  function BeatAfter(now: real, nextBeat: real, interval: real): real {
    if BeatDue(now, nextBeat) then now + interval else nextBeat
  }

  /** The bus takes a heartbeat only once the coordinator has subscribed. */
  function Sent(s: System, b: Beat, duplicate: Option<Beat>): multiset<Beat> {
    if !s.subscribed then s.flight
    else s.flight + multiset{b} + if duplicate.Some? then multiset{duplicate.value} else multiset{}
  }

  function After(t: Timing, s: System, event: Event): System
    requires Enabled(t, s, event)
  {
    match event
    case Wait(until) => s.(now := until)
    case WorkerTick(w, delay, duplicate) =>
      var k := s.workers[w];
      var next := k.(nextTick := s.now + t.workerTick, nextBeat := BeatAfter(s.now, k.nextBeat, t.interval));
      if BeatDue(s.now, k.nextBeat) then
        var again := if duplicate then Some(Beat(w, s.now + delay + t.base)) else None;
        s.(flight := Sent(s, Beat(w, s.now + delay), again), workers := s.workers[w := next])
      else s.(workers := s.workers[w := next])
    case Deliver(b) => s.(flight := s.flight - multiset{b}, inbox := s.inbox + [b.node])
    case CoordinatorTick(leads) =>
      var heard := HearAll(s.health, s.inbox, s.now);
      s.(subscribed := true, inbox := [], nextTick := s.now + t.tick,
         health := if leads then Declare(heard, s.now, t.timeout) else heard)
    case Kill(w) => s.(workers := s.workers[w := s.workers[w].(killedAt := Some(s.now))])
    case Join(w) => s.(workers := s.workers[w := Worker(None, s.now, 0.0)])
  }

  /** The coordinator starts out with its initial workers alive and last seen at time 0. */
  predicate Initial(s: System) {
    && s.now == 0.0 && s.nextTick == 0.0 && !s.subscribed && s.inbox == [] && s.flight == multiset{}
    && s.health == Health(map w | w in s.workers :: 0.0, s.workers.Keys, {})
    && forall w :: w in s.workers ==> s.workers[w] == Worker(None, 0.0, 0.0)
  }

  ghost predicate Run(t: Timing, run: seq<System>, events: seq<Event>) {
    && |run| == |events| + 1 && Initial(run[0])
    && forall i :: 0 <= i < |events| ==> Enabled(t, run[i], events[i]) && run[i + 1] == After(t, run[i], events[i])
  }

  // ---------------------------------------------------------------- live workers are never declared down

  /** No heartbeat of `w` has been sent. */
  predicate Unheard(s: System, w: Node) {
    w !in s.inbox && w !in s.health.alive && (forall b :: b in s.flight ==> b.node != w)
  }

  /** A heartbeat of `w` will have arrived before `w` is overdue. */
  predicate Vouched(t: Timing, s: System, w: Node, k: Worker) {
    && w in s.health.lastSeen
    && (|| w in s.inbox
        || (exists b :: b in s.flight && b.node == w && b.due <= s.health.lastSeen[w] + t.timeout)
        || k.nextBeat + t.workerTick + t.latency <= s.health.lastSeen[w] + t.timeout)
  }

  predicate LiveOk(t: Timing, s: System, w: Node) {
    match s
    case System(now, _, _, health, _, _, workers) =>
      w in workers && workers[w].Alive() ==>
        var k := workers[w];
        && w !in health.down
        && now <= k.nextTick
        && k.nextBeat <= now + t.interval
        && (k.nextTick < k.nextBeat + t.workerTick || (k.nextBeat <= k.nextTick && Unheard(s, w)))
        && (w in health.alive ==> Vouched(t, s, w, k))
  }

  /** Deadlines lie ahead, and nobody is heard of but workers. */
  predicate OnTime(s: System) {
    && 0.0 <= s.now <= s.nextTick
    && (s.subscribed || s.nextTick == 0.0)
    && (forall w :: w in s.health.lastSeen ==> 0.0 <= s.health.lastSeen[w] <= s.now)
    && (forall b :: b in s.flight ==> s.now <= b.due && b.node in s.workers)
    && (forall w :: w in s.inbox ==> w in s.workers)
    && (forall w :: w in s.health.alive ==> w in s.workers && w in s.health.lastSeen)
    && (forall w :: w in s.health.down ==> w in s.workers && w in s.health.lastSeen)
    && s.health.alive !! s.health.down
  }

  ghost predicate Inv(t: Timing, s: System) {
    OnTime(s) && forall w :: w in s.workers ==> LiveOk(t, s, w)
  }

  lemma InitialHolds(t: Timing, s: System)
    requires Patient(t) && Initial(s)
    ensures Inv(t, s)
  {
  }

  /** What the timing must satisfy. */
  predicate Patient(t: Timing) {
    t.Ok() && t.interval + t.workerTick + t.latency <= t.timeout
  }

  lemma OwnBeatVouches(t: Timing, s: System, w: Node, delay: real, duplicate: bool)
    requires Patient(t) && Inv(t, s) && Enabled(t, s, WorkerTick(w, delay, duplicate))
    requires w in s.health.alive && s.now >= s.workers[w].nextBeat
    ensures var r := After(t, s, WorkerTick(w, delay, duplicate)); Vouched(t, r, w, r.workers[w])
  {
    var r := After(t, s, WorkerTick(w, delay, duplicate));
    assert LiveOk(t, s, w);
    if s.subscribed {
      assert Beat(w, s.now + delay) in r.flight;
      forall b | b in s.flight ensures b in r.flight {
      }
    }
  }

  lemma BeatKept(t: Timing, s: System, w: Node, x: Node, delay: real, duplicate: bool)
    requires Patient(t) && Inv(t, s) && Enabled(t, s, WorkerTick(x, delay, duplicate)) && w in s.workers
    ensures LiveOk(t, After(t, s, WorkerTick(x, delay, duplicate)), w)
  {
    var r := After(t, s, WorkerTick(x, delay, duplicate));
    assert LiveOk(t, s, w);
    forall b | b in r.flight ensures b in s.flight || b.node == x {
    }
    forall b | b in s.flight ensures b in r.flight {
    }
    if w == x && w in s.health.alive && s.now >= s.workers[w].nextBeat {
      OwnBeatVouches(t, s, w, delay, duplicate);
    }
  }

  lemma DeliverKept(t: Timing, s: System, w: Node, d: Beat)
    requires Patient(t) && Inv(t, s) && Enabled(t, s, Deliver(d)) && w in s.workers
    ensures LiveOk(t, After(t, s, Deliver(d)), w)
  {
    var r := After(t, s, Deliver(d));
    assert LiveOk(t, s, w);
    assert d.node in r.inbox by {
      assert r.inbox[|s.inbox|] == d.node;
    }
    forall v | v in s.inbox ensures v in r.inbox {
      var i :| 0 <= i < |s.inbox| && s.inbox[i] == v;
      assert r.inbox[i] == v;
    }
    forall b | b in s.flight && b != d ensures b in r.flight {
    }
  }

  /** The coordinator finds no live worker overdue. */
  lemma TickKept(t: Timing, s: System, w: Node, leads: bool)
    requires Patient(t) && Inv(t, s) && Enabled(t, s, CoordinatorTick(leads)) && w in s.workers
    ensures LiveOk(t, After(t, s, CoordinatorTick(leads)), w)
  {
    assert LiveOk(t, s, w);
    HearAllIs(s.health, s.inbox, s.now);
    if s.workers[w].Alive() && w in s.inbox {
      assert Vouched(t, After(t, s, CoordinatorTick(leads)), w, s.workers[w]);
    }
  }

  lemma JoinKept(t: Timing, s: System, w: Node, x: Node)
    requires Patient(t) && Inv(t, s) && Enabled(t, s, Join(x)) && (w in s.workers || w == x)
    ensures LiveOk(t, After(t, s, Join(x)), w)
  {
    if w == x {
      assert Unheard(After(t, s, Join(x)), x);
    } else {
      assert LiveOk(t, s, w);
    }
  }

  lemma SentOnTime(t: Timing, s: System, w: Node, delay: real, duplicate: bool)
    requires t.Ok() && OnTime(s) && Enabled(t, s, WorkerTick(w, delay, duplicate))
    ensures OnTime(After(t, s, WorkerTick(w, delay, duplicate)))
  {
    var r := After(t, s, WorkerTick(w, delay, duplicate));
    assert forall b :: b in r.flight ==> b in s.flight || (s.now <= b.due && b.node == w);
  }

  lemma HeardOnTime(t: Timing, s: System, leads: bool)
    requires t.Ok() && OnTime(s) && Enabled(t, s, CoordinatorTick(leads))
    ensures OnTime(After(t, s, CoordinatorTick(leads)))
  {
    HearAllIs(s.health, s.inbox, s.now);
  }

  lemma DeliveredOnTime(t: Timing, s: System, d: Beat)
    requires t.Ok() && OnTime(s) && Enabled(t, s, Deliver(d))
    ensures OnTime(After(t, s, Deliver(d)))
  {
    var r := After(t, s, Deliver(d));
    forall w | w in r.inbox ensures w in s.workers {
      assert w in s.inbox || w == d.node;
    }
    forall b | b in r.flight ensures b in s.flight {
    }
  }

  lemma OnTimeKept(t: Timing, s: System, event: Event)
    requires t.Ok() && OnTime(s) && Enabled(t, s, event)
    ensures OnTime(After(t, s, event))
  {
    match event
    case CoordinatorTick(leads) => HeardOnTime(t, s, leads);
    case WorkerTick(w, delay, duplicate) => SentOnTime(t, s, w, delay, duplicate);
    case Deliver(b) => DeliveredOnTime(t, s, b);
    case Wait(until) =>
    case Kill(w) =>
    case Join(w) =>
  }

  lemma StepKeeps(t: Timing, s: System, event: Event)
    requires Patient(t) && Inv(t, s) && Enabled(t, s, event)
    ensures Inv(t, After(t, s, event))
  {
    var r := After(t, s, event);
    OnTimeKept(t, s, event);
    forall w | w in r.workers ensures LiveOk(t, r, w) {
      match event
      case WorkerTick(x, delay, duplicate) => BeatKept(t, s, w, x, delay, duplicate);
      case Deliver(d) => DeliverKept(t, s, w, d);
      case CoordinatorTick(leads) => TickKept(t, s, w, leads);
      case Wait(until) => assert LiveOk(t, s, w);
      case Kill(x) => assert LiveOk(t, s, w);
      case Join(x) => JoinKept(t, s, w, x);
    }
  }

  lemma {:induction false} AlwaysInv(t: Timing, run: seq<System>, events: seq<Event>, i: nat)
    requires Patient(t) && Run(t, run, events) && i < |run|
    ensures Inv(t, run[i])
  {
    if i == 0 {
      InitialHolds(t, run[0]);
    } else {
      AlwaysInv(t, run, events, i - 1);
      StepKeeps(t, run[i - 1], events[i - 1]);
    }
  }

  /** If a heartbeat interval, a worker tick and the greatest latency fit into the timeout, no live
      worker is ever declared down, whenever the coordinator leads. */
  lemma LiveWorkersStayUp(t: Timing, run: seq<System>, events: seq<Event>, i: nat, w: Node)
    requires Patient(t) && Run(t, run, events) && i < |run|
    requires w in run[i].workers && run[i].workers[w].Alive()
    ensures w !in run[i].health.down
  {
    AlwaysInv(t, run, events, i);
    assert LiveOk(t, run[i], w);
  }

  // ---------------------------------------------------------------- dead workers are declared down

  /** How long after its death a worker can still be heard. */
  function LastWords(t: Timing): real {
    t.latency + t.base
  }

  /** What is still to come from worker `w`, if it is dead. */
  predicate DeadOk(t: Timing, s: System, w: Node) {
    match s
    case System(now, nextTick, _, health, inbox, flight, workers) =>
      w in workers && workers[w].killedAt.Some? ==>
        var k := workers[w].killedAt.value;
        && k <= now
        && (forall b :: b in flight && b.node == w ==> b.due <= k + LastWords(t))
        && (w in inbox ==> nextTick <= k + LastWords(t) + t.tick)
        && (w in health.lastSeen ==> health.lastSeen[w] <= k + LastWords(t) + t.tick)
  }

  ghost predicate DeadInv(t: Timing, s: System) {
    && OnTime(s)
    && s.nextTick <= s.now + t.tick
    && (forall b :: b in s.flight ==> b.due <= s.now + LastWords(t))
    && (forall w :: DeadOk(t, s, w))
  }

  lemma DeadBeatKept(t: Timing, s: System, w: Node, x: Node, delay: real, duplicate: bool)
    requires t.Ok() && DeadInv(t, s) && Enabled(t, s, WorkerTick(x, delay, duplicate))
    ensures DeadOk(t, After(t, s, WorkerTick(x, delay, duplicate)), w)
    ensures forall b :: b in After(t, s, WorkerTick(x, delay, duplicate)).flight ==> b.due <= s.now + LastWords(t)
  {
    var r := After(t, s, WorkerTick(x, delay, duplicate));
    assert DeadOk(t, s, w);
    forall b | b in r.flight ensures b in s.flight || (b.node == x && b.due <= s.now + LastWords(t)) {
    }
  }

  lemma DeadDeliverKept(t: Timing, s: System, w: Node, d: Beat)
    requires t.Ok() && DeadInv(t, s) && Enabled(t, s, Deliver(d))
    ensures DeadOk(t, After(t, s, Deliver(d)), w)
  {
    var r := After(t, s, Deliver(d));
    assert DeadOk(t, s, w);
    forall b | b in r.flight ensures b in s.flight {
    }
    forall v | v in r.inbox ensures v in s.inbox || v == d.node {
    }
  }

  lemma DeadTickKept(t: Timing, s: System, w: Node, leads: bool)
    requires t.Ok() && DeadInv(t, s) && Enabled(t, s, CoordinatorTick(leads))
    ensures DeadOk(t, After(t, s, CoordinatorTick(leads)), w)
  {
    assert DeadOk(t, s, w);
    HearAllIs(s.health, s.inbox, s.now);
  }

  lemma DeadKept(t: Timing, s: System, w: Node, event: Event)
    requires t.Ok() && DeadInv(t, s) && Enabled(t, s, event)
    ensures DeadOk(t, After(t, s, event), w)
  {
    assert DeadOk(t, s, w);
    match event
    case WorkerTick(x, delay, duplicate) => DeadBeatKept(t, s, w, x, delay, duplicate);
    case Deliver(d) => DeadDeliverKept(t, s, w, d);
    case CoordinatorTick(leads) => DeadTickKept(t, s, w, leads);
    case Wait(_) =>
    case Kill(_) =>
    case Join(_) =>
  }

  lemma DeadStep(t: Timing, s: System, event: Event)
    requires t.Ok() && DeadInv(t, s) && Enabled(t, s, event)
    ensures DeadInv(t, After(t, s, event))
  {
    OnTimeKept(t, s, event);
    forall w ensures DeadOk(t, After(t, s, event), w) {
      DeadKept(t, s, w, event);
    }
    if event.WorkerTick? {
      DeadBeatKept(t, s, event.worker, event.worker, event.delay, event.duplicate);
    }
  }

  lemma {:induction false} AlwaysDeadInv(t: Timing, run: seq<System>, events: seq<Event>, i: nat)
    requires t.Ok() && Run(t, run, events) && i < |run|
    ensures DeadInv(t, run[i])
  {
    if i == 0 {
      forall w ensures DeadOk(t, run[0], w) {
      }
    } else {
      AlwaysDeadInv(t, run, events, i - 1);
      DeadStep(t, run[i - 1], events[i - 1]);
    }
  }

  /** At its last tick among the first `n` events, if any, the coordinator was the leader. */
  predicate LedLast(events: seq<Event>, n: nat)
    requires n <= |events|
  {
    n == 0 || if events[n - 1].CoordinatorTick? then events[n - 1].leads else LedLast(events, n - 1)
  }

  /** Whoever is alive for the coordinator will not be overdue before the tick after the next. */
  predicate AllHeard(t: Timing, s: System) {
    forall w :: w in s.health.alive ==> w in s.health.lastSeen && s.nextTick <= s.health.lastSeen[w] + t.timeout + t.tick
  }

  /** A leader's tick leaves only workers that it has heard in time. */
  lemma LeaderTickHears(t: Timing, s: System)
    requires t.Ok() && OnTime(s) && Enabled(t, s, CoordinatorTick(true))
    ensures AllHeard(t, After(t, s, CoordinatorTick(true)))
  {
    HearAllIs(s.health, s.inbox, s.now);
  }

  lemma OthersHear(t: Timing, s: System, event: Event)
    requires AllHeard(t, s) && Enabled(t, s, event) && !event.CoordinatorTick?
    ensures AllHeard(t, After(t, s, event))
  {
  }

  lemma {:induction false} LeaderHearsAll(t: Timing, run: seq<System>, events: seq<Event>, i: nat)
    requires t.Ok() && Run(t, run, events) && i < |run| && LedLast(events, i)
    ensures AllHeard(t, run[i])
  {
    if i > 0 {
      if events[i - 1].CoordinatorTick? {
        AlwaysDeadInv(t, run, events, i - 1);
        LeaderTickHears(t, run[i - 1]);
      } else {
        LeaderHearsAll(t, run, events, i - 1);
        OthersHear(t, run[i - 1], events[i - 1]);
      }
    }
  }

  /** A coordinator that leads, since whenever, has a worker that died at time k out of the cluster once latency,
      a late duplicate, the timeout and two ticks have passed; a worker it had in the cluster before is down. */
  lemma DeadWorkersGoDown(t: Timing, run: seq<System>, events: seq<Event>, i: nat, w: Node)
    requires t.Ok() && Run(t, run, events) && i < |run| && LedLast(events, i)
    requires w in run[i].workers && run[i].workers[w].killedAt.Some?
    requires run[i].now > run[i].workers[w].killedAt.value + t.latency + t.base + t.timeout + 2.0 * t.tick
    ensures w !in run[i].health.alive
    ensures (exists j :: 0 <= j <= i && w in run[j].health.alive) ==> w in run[i].health.down
  {
    AlwaysDeadInv(t, run, events, i);
    LeaderHearsAll(t, run, events, i);
    assert DeadOk(t, run[i], w);
    if j :| 0 <= j <= i && w in run[j].health.alive {
      KnownForever(t, run, events, j, i, w);
    }
  }

  /** Once in the cluster, a worker is in it or down. */
  lemma {:induction false} KnownForever(t: Timing, run: seq<System>, events: seq<Event>, j: nat, i: nat, w: Node)
    requires Run(t, run, events) && j <= i < |run| && w in run[j].health.alive
    ensures w in run[i].health.alive + run[i].health.down
  {
    if i > j {
      KnownForever(t, run, events, j, i - 1, w);
      if events[i - 1].CoordinatorTick? {
        HearAllIs(run[i - 1].health, run[i - 1].inbox, run[i - 1].now);
      }
    }
  }
}
