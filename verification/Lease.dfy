/** Leader election by lease (coordinator.py, `LeaseRegistry` and the election part of `run`),
    as a timed protocol: coordinators wake up every `tick` seconds and try to acquire or renew
    a shared lease that lasts `ttl` seconds. */
module Lease {
  import opened Models

  datatype LeaseState = LeaseState(holder: Option<Node>, expiry: real, epoch: nat)

  /** `try_acquire` succeeds for the holder, and for anybody when nobody holds an unexpired lease. */
  predicate Granted(l: LeaseState, node: Node, now: real) {
    l.holder.None? || now >= l.expiry || l.holder == Some(node)
  }

  /** The registry after `try_acquire`. */
  function Acquire(l: LeaseState, node: Node, now: real, ttl: real): LeaseState {
    if !Granted(l, node, now) then l
    else LeaseState(Some(node), now + ttl, if l.holder == Some(node) then l.epoch else l.epoch + 1)
  }

  predicate IsLeader(l: LeaseState, node: Node, now: real) {
    l.holder == Some(node) && now < l.expiry
  }

  class LeaseRegistry {
    var holder: Option<Node>
    var expiry: real
    var epoch: nat

    constructor ()
      ensures View() == LeaseState(None, 0.0, 0)
    {
      holder, expiry, epoch := None, 0.0, 0;
    }

    function View(): LeaseState
      reads this
    {
      LeaseState(holder, expiry, epoch)
    }

    method TryAcquire(node: Node, now: real, ttl: real) returns (ok: bool)
      modifies this
      ensures ok <==> Granted(old(View()), node, now)
      ensures View() == Acquire(old(View()), node, now, ttl)
      ensures ok && 0.0 < ttl ==> IsLeader(View(), node, now)
    {
      if holder.None? || now >= expiry {
        if holder != Some(node) {
          epoch := epoch + 1;
        }
        holder := Some(node);
        expiry := now + ttl;
        return true;
      }
      if holder == Some(node) {
        expiry := now + ttl;
        return true;
      }
      return false;
    }
  }

  // ---------------------------------------------------------------- the protocol

  /** A coordinator: whether it runs, when it wakes up next, and whether it thinks it leads. */
  datatype Candidate = Candidate(killedAt: Option<real>, nextTick: real, isLeader: bool)
  {
    predicate Alive() {
      killedAt.None?
    }
  }

  datatype Election = Election(now: real, lease: LeaseState, coords: map<Node, Candidate>)

  datatype Event = Wait(until: real) | Tick(node: Node) | Kill(node: Node)

  /** Time does not pass a wake-up, and a coordinator acts when it wakes up. */
  predicate Enabled(e: Election, event: Event) {
    match event
    case Wait(until) =>
      e.now <= until && forall c :: c in e.coords && e.coords[c].Alive() ==> until <= e.coords[c].nextTick
    case Tick(c) => c in e.coords && e.coords[c].Alive() && e.coords[c].nextTick == e.now
    case Kill(c) => c in e.coords && e.coords[c].Alive()
  }

  function After(e: Election, event: Event, tick: real, ttl: real): Election
    requires Enabled(e, event)
  {
    match event
    case Wait(until) => e.(now := until)
    case Tick(c) =>
      e.(lease := Acquire(e.lease, c, e.now, ttl),
         coords := e.coords[c := Candidate(None, e.now + tick, Granted(e.lease, c, e.now))])
    case Kill(c) => e.(coords := e.coords[c := e.coords[c].(killedAt := Some(e.now))])
  }

  /** All coordinators are started at the same time, before anybody holds the lease. */
  predicate Initial(e: Election) {
    && e.lease == LeaseState(None, 0.0, 0) && e.now == 0.0
    && forall c :: c in e.coords ==> e.coords[c] == Candidate(None, 0.0, false)
  }

  ghost predicate Run(run: seq<Election>, events: seq<Event>, tick: real, ttl: real) {
    && |run| == |events| + 1 && Initial(run[0])
    && forall i :: 0 <= i < |events| ==> Enabled(run[i], events[i]) && run[i + 1] == After(run[i], events[i], tick, ttl)
  }

  /** A live coordinator wakes up in time, holds an unexpired lease whenever it thinks it leads, and
      never sees the lease stay expired for longer than a tick. */
  predicate CandidateOk(now: real, lease: LeaseState, c: Node, k: Candidate, tick: real, ttl: real) {
    match k
    case Candidate(killedAt, nextTick, isLeader) =>
      (killedAt.None? ==>
        && now <= nextTick <= now + tick
        && nextTick <= lease.expiry + tick
        && (isLeader <==> lease.holder == Some(c))
        && (isLeader ==> lease.expiry == nextTick - tick + ttl))
      && (killedAt.Some? ==> 0.0 <= killedAt.value <= now)
      && (killedAt.Some? && lease.holder == Some(c) ==> lease.expiry <= killedAt.value + ttl)
  }

  predicate Inv(e: Election, tick: real, ttl: real) {
    && (e.lease.holder.Some? ==> e.lease.holder.value in e.coords)
    && 0.0 <= e.now && (e.lease.holder.None? ==> e.lease.expiry == 0.0)
    && (forall c :: c in e.coords ==> CandidateOk(e.now, e.lease, c, e.coords[c], tick, ttl))
  }

  lemma InitialHolds(e: Election, tick: real, ttl: real)
    requires 0.0 < tick < ttl && Initial(e)
    ensures Inv(e, tick, ttl)
  {
  }

  /** While the holder lives, its lease does not expire. */
  lemma HolderIsSafe(e: Election, h: Node, tick: real, ttl: real)
    requires 0.0 < tick < ttl && Inv(e, tick, ttl)
    requires e.lease.holder == Some(h) && h in e.coords && e.coords[h].Alive()
    ensures e.coords[h].isLeader && e.now <= e.coords[h].nextTick < e.lease.expiry
  {
    assert CandidateOk(e.now, e.lease, h, e.coords[h], tick, ttl);
  }

  lemma TickKeeps(e: Election, c: Node, tick: real, ttl: real)
    requires 0.0 < tick < ttl && Inv(e, tick, ttl) && Enabled(e, Tick(c))
    ensures Inv(After(e, Tick(c), tick, ttl), tick, ttl)
  {
    var f := After(e, Tick(c), tick, ttl);
    forall other | other in f.coords
      ensures CandidateOk(f.now, f.lease, other, f.coords[other], tick, ttl)
    {
      assert CandidateOk(e.now, e.lease, other, e.coords[other], tick, ttl);
      assert CandidateOk(e.now, e.lease, c, e.coords[c], tick, ttl);
    }
  }

  lemma StepKeeps(e: Election, event: Event, tick: real, ttl: real)
    requires 0.0 < tick < ttl && Inv(e, tick, ttl) && Enabled(e, event)
    ensures Inv(After(e, event, tick, ttl), tick, ttl)
  {
    match event
    case Tick(c) => TickKeeps(e, c, tick, ttl);
    case Wait(until) =>
      var f := After(e, event, tick, ttl);
      forall c | c in f.coords ensures CandidateOk(f.now, f.lease, c, f.coords[c], tick, ttl) {
        assert CandidateOk(e.now, e.lease, c, e.coords[c], tick, ttl);
      }
    case Kill(k) =>
      var f := After(e, event, tick, ttl);
      forall c | c in f.coords ensures CandidateOk(f.now, f.lease, c, f.coords[c], tick, ttl) {
        assert CandidateOk(e.now, e.lease, c, e.coords[c], tick, ttl);
      }
  }

  lemma {:induction false} AlwaysInv(run: seq<Election>, events: seq<Event>, tick: real, ttl: real, i: nat)
    requires 0.0 < tick < ttl && Run(run, events, tick, ttl) && i < |run|
    ensures Inv(run[i], tick, ttl)
  {
    if i == 0 {
      InitialHolds(run[0], tick, ttl);
    } else {
      AlwaysInv(run, events, tick, ttl, i - 1);
      StepKeeps(run[i - 1], events[i - 1], tick, ttl);
    }
  }

  // ---------------------------------------------------------------- what the protocol gives

  ghost predicate Reachable(e: Election, tick: real, ttl: real) {
    exists run, events :: Run(run, events, tick, ttl) && run[|events|] == e
  }

  lemma ReachableInv(e: Election, tick: real, ttl: real)
    requires 0.0 < tick < ttl && Reachable(e, tick, ttl)
    ensures Inv(e, tick, ttl)
  {
    var run, events :| Run(run, events, tick, ttl) && run[|events|] == e;
    AlwaysInv(run, events, tick, ttl, |events|);
  }

  /** A coordinator that thinks it leads does lead, until it next wakes up: what it does as leader
      while handling its inbox, before renewing, it does as the holder of an unexpired lease. */
  lemma LeaderIsCurrent(e: Election, c: Node, tick: real, ttl: real)
    requires 0.0 < tick < ttl && Reachable(e, tick, ttl)
    requires c in e.coords && e.coords[c].Alive() && e.coords[c].isLeader
    ensures IsLeader(e.lease, c, e.now) && IsLeader(e.lease, c, e.coords[c].nextTick)
  {
    ReachableInv(e, tick, ttl);
    assert CandidateOk(e.now, e.lease, c, e.coords[c], tick, ttl);
  }

  /** No two live coordinators think they lead. */
  lemma OneLeader(e: Election, a: Node, b: Node, tick: real, ttl: real)
    requires 0.0 < tick < ttl && Reachable(e, tick, ttl)
    requires a in e.coords && e.coords[a].Alive() && e.coords[a].isLeader
    requires b in e.coords && e.coords[b].Alive() && e.coords[b].isLeader
    ensures a == b
  {
    LeaderIsCurrent(e, a, tick, ttl);
    LeaderIsCurrent(e, b, tick, ttl);
  }

  /** The lease changes hands only once its holder has been killed. */
  lemma HolderChangesAfterKill(e: Election, event: Event, h: Node, tick: real, ttl: real)
    requires 0.0 < tick < ttl && Reachable(e, tick, ttl) && Enabled(e, event)
    requires e.lease.holder == Some(h) && After(e, event, tick, ttl).lease.holder != Some(h)
    ensures h in e.coords && !e.coords[h].Alive()
  {
    ReachableInv(e, tick, ttl);
    if e.coords[h].Alive() {
      HolderIsSafe(e, h, tick, ttl);
    }
  }

  /** If a coordinator was killed at time k and another one lives, then once ttl + tick has passed somebody
      else holds the lease: a live leader with an unexpired lease, or one that was killed in turn, no longer ago
      than ttl + tick. */
  lemma Failover(e: Election, h: Node, c: Node, tick: real, ttl: real) returns (x: Node)
    requires 0.0 < tick < ttl && Reachable(e, tick, ttl)
    requires h in e.coords && !e.coords[h].Alive() && e.now > e.coords[h].killedAt.value + ttl + tick
    requires c in e.coords && e.coords[c].Alive()
    ensures e.lease.holder == Some(x) && x in e.coords && x != h
    ensures e.coords[x].Alive() ==> e.coords[x].isLeader && IsLeader(e.lease, x, e.now)
    ensures !e.coords[x].Alive() ==> e.now <= e.coords[x].killedAt.value + ttl + tick
  {
    ReachableInv(e, tick, ttl);
    assert CandidateOk(e.now, e.lease, h, e.coords[h], tick, ttl);
    assert CandidateOk(e.now, e.lease, c, e.coords[c], tick, ttl);
    x := e.lease.holder.value;
    assert CandidateOk(e.now, e.lease, x, e.coords[x], tick, ttl);
  }

  // ---------------------------------------------------------------- failovers

  /** The coordinators that were killed and do not hold the lease. */
  ghost function Deposed(e: Election): set<Node> {
    set c | c in e.coords && !e.coords[c].Alive() && e.lease.holder != Some(c)
  }

  ghost function Killed(e: Election): set<Node> {
    set c | c in e.coords && !e.coords[c].Alive()
  }

  /** Every epoch but the current one ended with a killed leader. */
  ghost predicate EpochsPaidFor(e: Election) {
    if e.lease.holder.None? then e.lease.epoch == 0 else e.lease.epoch <= 1 + |Deposed(e)|
  }

  lemma EpochStep(e: Election, event: Event, tick: real, ttl: real)
    requires 0.0 < tick < ttl && Inv(e, tick, ttl) && Enabled(e, event) && EpochsPaidFor(e)
    ensures EpochsPaidFor(After(e, event, tick, ttl))
  {
    var f := After(e, event, tick, ttl);
    if event.Tick? && e.lease.holder.Some? && f.lease.holder != e.lease.holder {
      var h := e.lease.holder.value;
      if e.coords[h].Alive() {
        HolderIsSafe(e, h, tick, ttl);
      }
      assert Deposed(f) == Deposed(e) + {h};
    } else {
      assert Deposed(e) <= Deposed(f);
      Smaller(Deposed(e), Deposed(f));
    }
  }

  lemma {:induction false} Smaller<T>(a: set<T>, b: set<T>)
    requires a <= b
    ensures |a| <= |b|
  {
    if a != {} {
      var x :| x in a;
      Smaller(a - {x}, b - {x});
    }
  }

  lemma {:induction false} EpochsAlwaysPaidFor(run: seq<Election>, events: seq<Event>, tick: real, ttl: real, i: nat)
    requires 0.0 < tick < ttl && Run(run, events, tick, ttl) && i < |run|
    ensures EpochsPaidFor(run[i])
  {
    if i > 0 {
      EpochsAlwaysPaidFor(run, events, tick, ttl, i - 1);
      AlwaysInv(run, events, tick, ttl, i - 1);
      EpochStep(run[i - 1], events[i - 1], tick, ttl);
    }
  }

  /** There are never more changes of leader than killed coordinators. */
  lemma FailoversAreKills(e: Election, tick: real, ttl: real)
    requires 0.0 < tick < ttl && Reachable(e, tick, ttl)
    ensures e.lease.epoch <= 1 + |Killed(e)|
  {
    var run, events :| Run(run, events, tick, ttl) && run[|events|] == e;
    EpochsAlwaysPaidFor(run, events, tick, ttl, |events|);
    Smaller(Deposed(e), Killed(e));
  }

  /** How often the lease has changed hands in the first `n` steps. */
  ghost function Changes(run: seq<Election>, n: nat): nat
    requires n < |run|
  {
    if n == 0 then 0 else Changes(run, n - 1) + if run[n].lease.holder != run[n - 1].lease.holder then 1 else 0
  }

  /** The epoch counts the changes of holder, the first included. */
  lemma {:induction false} EpochCountsHolders(run: seq<Election>, events: seq<Event>, tick: real, ttl: real, i: nat)
    requires Run(run, events, tick, ttl) && i < |run|
    ensures run[i].lease.epoch == Changes(run, i)
  {
    if i > 0 {
      EpochCountsHolders(run, events, tick, ttl, i - 1);
    }
  }
}
