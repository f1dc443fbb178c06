/** Why `run_until` ends when actors run: an actor that keeps going without letting time pass uses up its inbox. */
module Pacing {
  import opened Models
  import opened SimClock
  import opened Actors

  /** A turn that sleeps or schedules does so for at least `pace` seconds.  Waiting for messages is free. */
  predicate PacedTurn<L, M>(turn: Turn<L, M>, now: real, pace: real) {
    && (turn.outcome.Sleep? ==> turn.outcome.dt >= pace)
    && (forall i :: 0 <= i < |turn.calls| ==> turn.calls[i].0 >= now + pace)
  }

  ghost predicate Paced<L(!new), M(!new)>(p: Program<L, M>, pace: real) {
    forall id, local, value, inbox, now :: PacedTurn(p(id, local, value, inbox, now), now, pace)
  }

  // ---------------------------------------------------------------- messages in inboxes

  ghost function Total<M>(inboxes: map<Id, seq<M>>): nat {
    if inboxes == map[] then 0
    else
      var id :| id in inboxes;
      |inboxes[id]| + Total(inboxes - {id})
  }

  lemma {:induction false} TotalWithout<M>(inboxes: map<Id, seq<M>>, id: Id)
    requires id in inboxes
    ensures Total(inboxes) == |inboxes[id]| + Total(inboxes - {id})
    decreases |inboxes|
  {
    var first :| first in inboxes && Total(inboxes) == |inboxes[first]| + Total(inboxes - {first});
    if first != id {
      TotalWithout(inboxes - {first}, id);
      TotalWithout(inboxes - {id}, first);
      assert inboxes - {first} - {id} == inboxes - {id} - {first};
    }
  }

  /** Changing one inbox. */
  lemma TotalWith<M>(inboxes: map<Id, seq<M>>, id: Id, inbox: seq<M>)
    ensures Total(inboxes[id := inbox]) == Total(inboxes) - |At(inboxes, id)| + |inbox|
  {
    TotalWithout(inboxes[id := inbox], id);
    if id in inboxes {
      TotalWithout(inboxes, id);
      assert inboxes[id := inbox] - {id} == inboxes - {id};
    } else {
      assert inboxes[id := inbox] - {id} == inboxes;
    }
  }

  // ---------------------------------------------------------------- what an event costs

  /** A message or a spawn may lead to a wake-up at the same time; a wake-up leads to another only by using up a
      message. */
  function Weight<L, M>(thunk: Thunk<L, M>): nat {
    match thunk
    case Resume(_, _) => 1
    case Do(Kill(_)) => 1
    case Do(_) => 2
  }

  /** What the calls add before `limit`. */
  function Added<L, M>(calls: seq<(real, Thunk<L, M>)>, limit: real): nat {
    SoonCalls(calls, limit, Weight<L, M>)
  }

  lemma {:induction false} AddedConcat<L, M>(a: seq<(real, Thunk<L, M>)>, b: seq<(real, Thunk<L, M>)>, limit: real)
    ensures Added(a + b, limit) == Added(a, limit) + Added(b, limit)
  {
    if a == [] {
      assert a + b == b;
    } else {
      assert (a + b)[1..] == a[1..] + b;
      AddedConcat(a[1..], b, limit);
    }
  }

  lemma AddedOne<L, M>(call: (real, Thunk<L, M>), limit: real)
    ensures Added([call], limit) == if call.0 < limit then Weight(call.1) else 0
  {
    var calls := [call];
    assert calls[1..] == [];
    assert Added(calls[1..], limit) == 0;
  }

  /** How a turn ends: it adds a wake-up before `limit` only by taking a message. */
  lemma EndingCost<L, M>(k: Kernel<L, M>, id: Id, outcome: Outcome, now: real, limit: real)
    requires outcome.Sleep? ==> now + outcome.dt >= limit
    ensures var (after, calls) := Ending(k, id, outcome, now);
            Added(calls, limit) + Total(after.inboxes) <= Total(k.inboxes)
  {
    var inbox := At(k.inboxes, id);
    match outcome
    case Done =>
    case Sleep(dt) => AddedOne<L, M>((now + dt, Resume(id, None)), limit);
    case Receive =>
      if inbox != [] {
        AddedOne<L, M>((now, Resume(id, Some(inbox[0]))), limit);
        TotalWith(k.inboxes, id, inbox[1..]);
      }
  }

  lemma TurnCost<L, M>(p: Program<L, M>, k: Kernel<L, M>, id: Id, value: Option<M>, now: real, limit: real, pace: real)
    requires id in k.locals && limit <= now + pace
    requires PacedTurn(p(id, k.locals[id], value, At(k.inboxes, id), now), now, pace)
    ensures var (after, calls) := TakeTurn(p, k, id, value, now);
            Added(calls, limit) + Total(after.inboxes) <= Total(k.inboxes)
  {
    var turn := p(id, k.locals[id], value, At(k.inboxes, id), now);
    var taken := Min(turn.taken, |At(k.inboxes, id)|);
    var inbox := At(k.inboxes, id)[taken..];
    var got := At(k.consumed, id) + Listed(value) + At(k.inboxes, id)[..taken];
    var mid := Midway(k, id, turn.local, got, inbox);
    TotalWith(k.inboxes, id, inbox);
    EndingCost(mid, id, turn.outcome, now, limit);
    NothingSoon(Scheduled(turn.calls), limit, Weight<L, M>);
    AddedConcat(Scheduled(turn.calls), Ending(mid, id, turn.outcome, now).1, limit);
  }

  lemma DeliveryCost<L, M>(k: Kernel<L, M>, id: Id, msg: M, now: real, limit: real)
    ensures var (after, calls) := Delivery(k, id, msg, now);
            Added(calls, limit) + Total(after.inboxes) <= Total(k.inboxes) + 1
  {
    var (after, calls) := Delivery(k, id, msg, now);
    if id in k.alive {
      TotalWith(k.inboxes, id, after.inboxes[id]);
    }
    if calls != [] {
      assert calls == [calls[0]];
      AddedOne(calls[0], limit);
      assert after.inboxes == k.inboxes[id := after.inboxes[id]];
    }
  }

  /** An event adds less before `limit` than it was worth. */
  lemma EffectCost<L(!new), M(!new)>(p: Program<L, M>, k: Kernel<L, M>, thunk: Thunk<L, M>, now: real, limit: real,
                                     pace: real)
    requires Paced(p, pace) && limit <= now + pace
    ensures var (after, calls) := Effect(p, k, thunk, now);
            Added(calls, limit) + Total(after.inboxes) < Weight(thunk) + Total(k.inboxes)
  {
    match thunk
    case Resume(id, value) =>
      if id in k.alive && id in k.locals {
        TurnCost(p, k, id, value, now, limit, pace);
      }
    case Do(Deliver(id, msg)) => DeliveryCost(k, id, msg, now, limit);
    case Do(Kill(id)) => TotalWith(k.inboxes, id, []);
    case Do(Spawn(id, _)) => AddedOne<L, M>((now, Resume(id, None)), limit);
  }

  // ---------------------------------------------------------------- every run of paced actors ends

  /** What is left to do before `limit`. */
  ghost function ToDo<L, M>(s: World<L, M>, limit: real): nat {
    Soon(s.queue, limit, Weight<L, M>) + Total(s.app.inboxes)
  }

  lemma StepDoesSome<L(!new), M(!new)>(p: Program<L, M>, pace: real, s: World<L, M>, limit: real)
    requires Paced(p, pace) && s.queue != [] && limit - pace <= s.queue[0].at < limit
    ensures ToDo(Step(Running(p), s), limit) < ToDo(s, limit)
  {
    var e := s.queue[0];
    var (app, calls) := Effect(p, s.app, e.thunk, e.at);
    EffectCost(p, s.app, e.thunk, e.at, limit, pace);
    SoonScheduleAll(State(e.at, s.queue[1..], s.count, app), calls, limit, Weight<L, M>);
  }

  lemma PacedShrinks<L(!new), M(!new)>(p: Program<L, M>, pace: real)
    requires Paced(p, pace)
    ensures Shrinks(Running(p), pace, ToDo)
  {
    forall s: World<L, M>, limit | Orderly(s) && s.queue != [] && limit - pace <= s.queue[0].at < limit
      ensures ToDo(Step(Running(p), s), limit) < ToDo(s, limit)
    {
      StepDoesSome(p, pace, s, limit);
    }
  }

  /** If actors sleep, send and spawn only with a least positive delay, `run_until` ends, for every program and
      from every orderly state, however many messages are waiting. */
  lemma PacedRunsEnd<L(!new), M(!new)>(p: Program<L, M>, pace: real, s: World<L, M>, t: real)
    returns (n: nat, end: World<L, M>)
    requires 0.0 < pace && Paced(p, pace) && Orderly(s)
    ensures RunsIn(Running(p), s, t, n, end) && Orderly(end)
  {
    PacedShrinks(p, pace);
    n, end := RunEnds(Running(p), ToDo, s, t, pace);
  }
}
