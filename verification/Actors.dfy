/** Actors on the virtual-time scheduler (sim_clock.py, `spawn`, `kill`, `deliver` and `_step`): a
    program tells what an actor does in one turn, from when it is resumed until it waits again. */
module Actors {
  import opened Models
  import opened SimClock

  type Id = nat

  /** What a turn ends with: `await ctx.sleep(dt)`, `await ctx.recv()`, or the end of the coroutine. */
  datatype Outcome = Sleep(dt: real) | Receive | Done

  /** What an event may do to actors, besides resuming them. */
  datatype Call<L, M> = Deliver(to: Id, msg: M) | Kill(who: Id) | Spawn(who: Id, local: L)

  datatype Thunk<L, M> = Resume(id: Id, value: Option<M>) | Do(call: Call<L, M>)

  /** One turn: the new local state, how many messages `try_recv` took, what was scheduled, and how it ended. */
  datatype Turn<L, M> = Turn(local: L, taken: nat, calls: seq<(real, Call<L, M>)>, outcome: Outcome)

  type Program<!L, !M> = (Id, L, Option<M>, seq<M>, real) -> Turn<L, M>

  /** `locals` holds the unfinished coroutines.  `delivered` and `consumed` record, for each actor,
      the messages put into its inbox and the messages it has got, since it was spawned. */
  datatype Kernel<L, M> = Kernel(
    locals: map<Id, L>,
    alive: set<Id>,
    waiting: set<Id>,
    inboxes: map<Id, seq<M>>,
    delivered: map<Id, seq<M>>,
    consumed: map<Id, seq<M>>)

  function At<M>(m: map<Id, seq<M>>, id: Id): seq<M> {
    if id in m then m[id] else []
  }

  function Listed<M>(value: Option<M>): seq<M> {
    if value.Some? then [value.value] else []
  }

  type World<!L, !M> = State<Kernel<L, M>, Thunk<L, M>>

  // ---------------------------------------------------------------- what an event does

  function Min(a: nat, b: nat): nat {
    if a < b then a else b
  }

  function Scheduled<L, M>(calls: seq<(real, Call<L, M>)>): seq<(real, Thunk<L, M>)> {
    seq(|calls|, i requires 0 <= i < |calls| => (calls[i].0, Do(calls[i].1)))
  }

  /** The kernel in the middle of a turn: messages taken from the inbox, the outcome still open. */
  function Midway<L, M>(k: Kernel<L, M>, id: Id, local: L, got: seq<M>, inbox: seq<M>): Kernel<L, M> {
    k.(locals := k.locals[id := local], inboxes := k.inboxes[id := inbox], consumed := k.consumed[id := got])
  }

  /** How a turn ends: the coroutine is over, sleeps, or waits for a message. */
  function Ending<L, M>(k: Kernel<L, M>, id: Id, outcome: Outcome, now: real): (Kernel<L, M>, seq<(real, Thunk<L, M>)>) {
    match outcome
    case Done => (k.(locals := k.locals - {id}), [])
    case Sleep(dt) => (k, [(now + dt, Resume(id, None))])
    case Receive =>
      var inbox := At(k.inboxes, id);
      if inbox == [] then (k.(waiting := k.waiting + {id}), [])
      else (k.(inboxes := k.inboxes[id := inbox[1..]]), [(now, Resume(id, Some(inbox[0])))])
  }

  /** The kernel after the turn of an actor, and what is scheduled. */
  function TakeTurn<L, M>(p: Program<L, M>, k: Kernel<L, M>, id: Id, value: Option<M>, now: real)
    : (Kernel<L, M>, seq<(real, Thunk<L, M>)>)
    requires id in k.locals
  {
    var turn := p(id, k.locals[id], value, At(k.inboxes, id), now);
    var taken := Min(turn.taken, |At(k.inboxes, id)|);
    var inbox := At(k.inboxes, id)[taken..];
    var got := At(k.consumed, id) + Listed(value) + At(k.inboxes, id)[..taken];
    var (after, more) := Ending(Midway(k, id, turn.local, got, inbox), id, turn.outcome, now);
    (after, Scheduled(turn.calls) + more)
  }

  function Delivery<L, M>(k: Kernel<L, M>, id: Id, msg: M, now: real): (Kernel<L, M>, seq<(real, Thunk<L, M>)>) {
    if id !in k.alive then (k, [])
    else
      var inbox := At(k.inboxes, id) + [msg];
      var after := k.(inboxes := k.inboxes[id := inbox], delivered := k.delivered[id := At(k.delivered, id) + [msg]]);
      if id in k.waiting then
        (after.(waiting := k.waiting - {id}, inboxes := k.inboxes[id := inbox[1..]]), [(now, Resume(id, Some(inbox[0])))])
      else (after, [])
  }

  function Death<L, M>(k: Kernel<L, M>, id: Id): Kernel<L, M> {
    k.(locals := k.locals - {id}, alive := k.alive - {id}, waiting := k.waiting - {id}, inboxes := k.inboxes[id := []])
  }

  function Birth<L, M>(k: Kernel<L, M>, id: Id, local: L): Kernel<L, M> {
    k.(locals := k.locals[id := local], alive := k.alive + {id},
       delivered := k.delivered[id := At(k.inboxes, id)], consumed := k.consumed[id := []])
  }

  function Effect<L, M>(p: Program<L, M>, k: Kernel<L, M>, thunk: Thunk<L, M>, now: real)
    : (Kernel<L, M>, seq<(real, Thunk<L, M>)>)
  {
    match thunk
    case Resume(id, value) => if id in k.alive && id in k.locals then TakeTurn(p, k, id, value, now) else (k, [])
    case Do(Deliver(id, msg)) => Delivery(k, id, msg, now)
    case Do(Kill(id)) => (Death(k, id), [])
    case Do(Spawn(id, local)) => (Birth(k, id, local), [(now, Resume(id, None))])
  }

  /** The actors as a behaviour of the scheduler. */
  function Running<L, M>(p: Program<L, M>): Behaviour<Kernel<L, M>, Thunk<L, M>> {
    (k, thunk, now) => Effect(p, k, thunk, now)
  }

  // ---------------------------------------------------------------- queued wake-ups

  /** The values with which actor `id` is to be resumed, in queue order. */
  function Queued<L, M>(queue: seq<Event<Thunk<L, M>>>, id: Id): seq<Option<M>> {
    if queue == [] then []
    else
      (if queue[0].thunk.Resume? && queue[0].thunk.id == id then [queue[0].thunk.value] else []) + Queued(queue[1..], id)
  }

  lemma {:induction false} QueuedConcat<L, M>(a: seq<Event<Thunk<L, M>>>, b: seq<Event<Thunk<L, M>>>, id: Id)
    ensures Queued(a + b, id) == Queued(a, id) + Queued(b, id)
  {
    if a == [] {
      assert a + b == b;
    } else {
      assert (a + b)[1..] == a[1..] + b;
      QueuedConcat(a[1..], b, id);
    }
  }

  predicate Resumes<L, M>(thunk: Thunk<L, M>, id: Id) {
    thunk.Resume? && thunk.id == id
  }

  lemma QueuedEnqueue<L, M>(queue: seq<Event<Thunk<L, M>>>, e: Event<Thunk<L, M>>, id: Id)
    ensures !Resumes(e.thunk, id) ==> Queued(Enqueue(queue, e), id) == Queued(queue, id)
    ensures Resumes(e.thunk, id) ==> |Queued(Enqueue(queue, e), id)| == |Queued(queue, id)| + 1
    ensures Resumes(e.thunk, id) && Queued(queue, id) == [] ==> Queued(Enqueue(queue, e), id) == [e.thunk.value]
  {
    var p := Place(queue, e);
    assert queue == queue[..p] + queue[p..];
    QueuedConcat(queue[..p], queue[p..], id);
    QueuedConcat(queue[..p] + [e], queue[p..], id);
    QueuedConcat(queue[..p], [e], id);
    assert [e][1..] == [];
  }

  lemma {:induction false} QueuedOthers<L, M>(s: World<L, M>, calls: seq<(real, Thunk<L, M>)>, id: Id)
    requires forall i :: 0 <= i < |calls| ==> !Resumes(calls[i].1, id)
    ensures Queued(ScheduleAll(s, calls).queue, id) == Queued(s.queue, id)
    ensures ScheduleAll(s, calls).app == s.app && ScheduleAll(s, calls).now == s.now
    decreases |calls|
  {
    if calls != [] {
      var at := if calls[0].0 < s.now then s.now else calls[0].0;
      QueuedEnqueue(s.queue, Event(at, s.count, calls[0].1), id);
      QueuedOthers(Schedule(s, calls[0].0, calls[0].1), calls[1..], id);
    }
  }

  lemma {:induction false} ScheduleAllConcat<A, T>(s: State<A, T>, a: seq<(real, T)>, b: seq<(real, T)>)
    ensures ScheduleAll(s, a + b) == ScheduleAll(ScheduleAll(s, a), b)
    decreases |a|
  {
    if a == [] {
      assert a + b == b;
    } else {
      assert (a + b)[1..] == a[1..] + b;
      ScheduleAllConcat(Schedule(s, a[0].0, a[0].1), a[1..], b);
    }
  }

  /** Scheduling calls and then one wake-up of `id`. */
  lemma QueuedOne<L, M>(s: World<L, M>, calls: seq<(real, Thunk<L, M>)>, at: real, id: Id, value: Option<M>)
    requires forall i :: 0 <= i < |calls| ==> !Resumes(calls[i].1, id)
    ensures Queued(s.queue, id) == [] ==>
              Queued(ScheduleAll(s, calls + [(at, Resume(id, value))]).queue, id) == [value]
    ensures |Queued(ScheduleAll(s, calls + [(at, Resume(id, value))]).queue, id)| == |Queued(s.queue, id)| + 1
    ensures ScheduleAll(s, calls + [(at, Resume(id, value))]).app == s.app
  {
    var last: seq<(real, Thunk<L, M>)> := [(at, Resume(id, value))];
    ScheduleAllConcat(s, calls, last);
    QueuedOthers(s, calls, id);
    var r := ScheduleAll(s, calls);
    assert last[1..] == [];
    assert ScheduleAll(r, last) == Schedule(r, at, Resume(id, value));
    QueuedEnqueue(r.queue, Event(if at < r.now then r.now else at, r.count, Resume(id, value)), id);
  }

  // ---------------------------------------------------------------- the invariant

  /** The messages on their way into actor `id` by queued wake-ups. */
  function HandedOver<M>(values: seq<Option<M>>): seq<M> {
    if values == [] then [] else Listed(values[0]) + HandedOver(values[1..])
  }

  /** An unfinished live actor has exactly one queued wake-up, or waits with an empty inbox; what it has
      got, what is being handed to it and what is in its inbox is what was delivered, in order. */
  predicate ActorOk<L, M(==)>(k: Kernel<L, M>, values: seq<Option<M>>, id: Id) {
    match k
    case Kernel(locals, alive, waiting, inboxes, delivered, consumed) =>
      && (id in alive && id in locals ==> |values| == (if id in waiting then 0 else 1))
      && (id in alive && id !in locals ==> values == [] && id !in waiting)
      && (id in locals ==> id in alive)
      && (id in waiting ==> id in alive && id in locals && At(inboxes, id) == [])
      && (id !in alive ==> At(inboxes, id) == [])
      && (id in alive ==> At(consumed, id) + HandedOver(values) + At(inboxes, id) == At(delivered, id))
  }

  ghost predicate ActorsOk<L, M>(s: World<L, M>) {
    forall id :: ActorOk(s.app, Queued(s.queue, id), id)
  }

  /** Spawning is safe for an id without a queued wake-up that is not waiting. */
  predicate SpawnSafe<L, M>(s: World<L, M>, id: Id) {
    Queued(s.queue, id) == [] && id !in s.app.waiting
  }

  lemma ListedOne<M>(value: Option<M>)
    ensures HandedOver([value]) == Listed(value)
  {
    assert [value][1..] == [];
  }

  /** What was on its way, then the inbox: part of it is taken now, the rest stays. */
  lemma TakenInOrder<M>(consumed: seq<M>, value: Option<M>, inbox: seq<M>, taken: nat, delivered: seq<M>)
    requires consumed + HandedOver([value]) + inbox == delivered && taken <= |inbox|
    ensures consumed + Listed(value) + inbox[..taken] + inbox[taken..] == delivered
  {
    ListedOne(value);
    assert inbox == inbox[..taken] + inbox[taken..];
  }

  /** However the turn ends, the actor is resumed once more, waits, or is over. */
  lemma EndingOk<L, M>(k: Kernel<L, M>, id: Id, outcome: Outcome, now: real) returns (values: seq<Option<M>>)
    requires id in k.alive && id in k.locals && id !in k.waiting
    requires At(k.consumed, id) + At(k.inboxes, id) == At(k.delivered, id)
    ensures ActorOk(Ending(k, id, outcome, now).0, values, id)
    ensures var calls := Ending(k, id, outcome, now).1;
            if values == [] then calls == []
            else |values| == 1 && |calls| == 1 && calls[0].1 == Resume(id, values[0])
  {
    var inbox := At(k.inboxes, id);
    assert At(k.consumed, id) + [] == At(k.consumed, id);
    if outcome.Done? || (outcome.Receive? && inbox == []) {
      values := [];
    } else if outcome.Sleep? {
      values := [None];
      ListedOne<M>(None);
    } else {
      values := [Some(inbox[0])];
      ListedOne(Some(inbox[0]));
      assert inbox == [inbox[0]] + inbox[1..];
    }
  }

  /** A turn up to its ending: the kernel is in order but for how the turn ends. */
  lemma TurnMidway<L, M>(p: Program<L, M>, k: Kernel<L, M>, id: Id, value: Option<M>, now: real)
    returns (mid: Kernel<L, M>, outcome: Outcome, calls: seq<(real, Call<L, M>)>)
    requires ActorOk(k, [value], id) && id in k.alive && id in k.locals
    ensures TakeTurn(p, k, id, value, now) ==
            (Ending(mid, id, outcome, now).0, Scheduled(calls) + Ending(mid, id, outcome, now).1)
    ensures id in mid.alive && id in mid.locals && id !in mid.waiting
    ensures At(mid.consumed, id) + At(mid.inboxes, id) == At(mid.delivered, id)
  {
    var turn := p(id, k.locals[id], value, At(k.inboxes, id), now);
    var taken := Min(turn.taken, |At(k.inboxes, id)|);
    var got := At(k.consumed, id) + Listed(value) + At(k.inboxes, id)[..taken];
    TakenInOrder(At(k.consumed, id), value, At(k.inboxes, id), taken, At(k.delivered, id));
    mid, outcome, calls := Midway(k, id, turn.local, got, At(k.inboxes, id)[taken..]), turn.outcome, turn.calls;
  }

  lemma TurnOk<L, M>(p: Program<L, M>, s: World<L, M>, id: Id, value: Option<M>, r: World<L, M>)
    requires ActorOk(s.app, [value], id) && Queued(s.queue, id) == []
    requires id in s.app.alive && id in s.app.locals
    requires var (app, calls) := TakeTurn(p, s.app, id, value, s.now);
             r == ScheduleAll(s.(app := app), calls)
    ensures ActorOk(r.app, Queued(r.queue, id), id)
  {
    var mid, outcome, calls := TurnMidway(p, s.app, id, value, s.now);
    var values := EndingOk(mid, id, outcome, s.now);
    var (app, more) := Ending(mid, id, outcome, s.now);
    EndsQueued(s.(app := app), id, calls, more, values);
  }

  /** What is queued for an actor after its turn. */
  lemma EndsQueued<L, M>(s: World<L, M>, id: Id, calls: seq<(real, Call<L, M>)>, more: seq<(real, Thunk<L, M>)>,
                         values: seq<Option<M>>)
    requires Queued(s.queue, id) == []
    requires if values == [] then more == []
             else |values| == 1 && |more| == 1 && more[0].1 == Resume(id, values[0])
    ensures Queued(ScheduleAll(s, Scheduled(calls) + more).queue, id) == values
    ensures ScheduleAll(s, Scheduled(calls) + more).app == s.app
  {
    if values == [] {
      QueuedOthers(s, Scheduled(calls) + [], id);
    } else {
      assert more == [(more[0].0, Resume(id, values[0]))];
      QueuedOne(s, Scheduled(calls), more[0].0, id, values[0]);
    }
  }

  // ---------------------------------------------------------------- every event keeps the invariant

  /** The actor an event is about. */
  function About<L, M>(thunk: Thunk<L, M>): Id {
    match thunk
    case Resume(id, _) => id
    case Do(Deliver(id, _)) => id
    case Do(Kill(id)) => id
    case Do(Spawn(id, _)) => id
  }

  predicate SameActor<L(==), M(==)>(a: Kernel<L, M>, b: Kernel<L, M>, id: Id) {
    && (id in a.locals <==> id in b.locals) && (id in a.alive <==> id in b.alive) && (id in a.waiting <==> id in b.waiting)
    && At(a.inboxes, id) == At(b.inboxes, id) && (id in a.delivered <==> id in b.delivered)
    && At(a.delivered, id) == At(b.delivered, id) && At(a.consumed, id) == At(b.consumed, id)
  }

  lemma EndingElsewhere<L, M>(k: Kernel<L, M>, id: Id, outcome: Outcome, now: real, other: Id)
    requires other != id
    ensures SameActor(k, Ending(k, id, outcome, now).0, other)
    ensures var calls := Ending(k, id, outcome, now).1;
            forall i :: 0 <= i < |calls| ==> !Resumes(calls[i].1, other)
  {
  }

  lemma TurnElsewhere<L, M>(p: Program<L, M>, k: Kernel<L, M>, id: Id, value: Option<M>, now: real, other: Id)
    requires id in k.locals && other != id
    ensures SameActor(k, TakeTurn(p, k, id, value, now).0, other)
    ensures var calls := TakeTurn(p, k, id, value, now).1;
            forall i :: 0 <= i < |calls| ==> !Resumes(calls[i].1, other)
  {
    var turn := p(id, k.locals[id], value, At(k.inboxes, id), now);
    var taken := Min(turn.taken, |At(k.inboxes, id)|);
    var got := At(k.consumed, id) + Listed(value) + At(k.inboxes, id)[..taken];
    var mid := Midway(k, id, turn.local, got, At(k.inboxes, id)[taken..]);
    assert SameActor(k, mid, other);
    EndingElsewhere(mid, id, turn.outcome, now, other);
  }

  lemma DeliveryElsewhere<L, M>(k: Kernel<L, M>, id: Id, msg: M, now: real, other: Id)
    requires other != id
    ensures SameActor(k, Delivery(k, id, msg, now).0, other)
    ensures var calls := Delivery(k, id, msg, now).1;
            forall i :: 0 <= i < |calls| ==> !Resumes(calls[i].1, other)
  {
  }

  lemma LifeElsewhere<L, M>(k: Kernel<L, M>, id: Id, local: L, other: Id)
    requires other != id
    ensures SameActor(k, Death(k, id), other) && SameActor(k, Birth(k, id, local), other)
  {
  }

  /** An event schedules wake-ups only of the actor it is about, and leaves the other actors alone. */
  lemma EffectElsewhere<L, M>(p: Program<L, M>, k: Kernel<L, M>, thunk: Thunk<L, M>, now: real, other: Id)
    requires other != About(thunk)
    ensures SameActor(k, Effect(p, k, thunk, now).0, other)
    ensures var calls := Effect(p, k, thunk, now).1;
            forall i :: 0 <= i < |calls| ==> !Resumes(calls[i].1, other)
  {
    match thunk
    case Resume(id, value) =>
      if id in k.alive && id in k.locals {
        TurnElsewhere(p, k, id, value, now, other);
      }
    case Do(Deliver(id, msg)) => DeliveryElsewhere(k, id, msg, now, other);
    case Do(Kill(id)) =>
    case Do(Spawn(id, local)) => LifeElsewhere(k, id, local, other);
  }

  /** The state once the first event has been taken off the queue. */
  function Popped<L, M>(s: World<L, M>): World<L, M>
    requires s.queue != []
  {
    State(s.queue[0].at, s.queue[1..], s.count, s.app)
  }

  lemma OtherOk<L, M>(p: Program<L, M>, s: World<L, M>, other: Id)
    requires s.queue != [] && ActorsOk(s) && other != About(s.queue[0].thunk)
    ensures var r := Step(Running(p), s); ActorOk(r.app, Queued(r.queue, other), other)
  {
    var e := s.queue[0];
    var (app, calls) := Effect(p, s.app, e.thunk, e.at);
    EffectElsewhere(p, s.app, e.thunk, e.at, other);
    QueuedOthers(State(e.at, s.queue[1..], s.count, app), calls, other);
    assert Queued(s.queue, other) == Queued(s.queue[1..], other);
    assert ActorOk(s.app, Queued(s.queue, other), other);
  }

  lemma ResumeOk<L, M>(p: Program<L, M>, s: World<L, M>, id: Id, value: Option<M>)
    requires s.queue != [] && ActorsOk(s) && s.queue[0].thunk == Resume(id, value)
    ensures var r := Step(Running(p), s); ActorOk(r.app, Queued(r.queue, id), id)
  {
    assert ActorOk(s.app, Queued(s.queue, id), id);
    assert Queued(s.queue, id) == [value] + Queued(s.queue[1..], id);
    if id in s.app.alive && id in s.app.locals {
      assert Queued(s.queue[1..], id) == [];
      TurnOk(p, Popped(s), id, value, Step(Running(p), s));
    }
  }

  /** A delivery to a live actor: what is on its way to it afterwards, and what is scheduled for that. */
  lemma DeliveredTo<L, M>(k: Kernel<L, M>, values: seq<Option<M>>, id: Id, msg: M, now: real) returns (wakes: seq<Option<M>>)
    requires ActorOk(k, values, id)
    ensures ActorOk(Delivery(k, id, msg, now).0, wakes, id)
    ensures var calls := Delivery(k, id, msg, now).1;
            if calls == [] then wakes == values else values == [] && |wakes| == 1 && calls == [(now, Resume(id, wakes[0]))]
  {
    wakes := values;
    if id in k.alive {
      var d, c, h, inbox := At(k.delivered, id), At(k.consumed, id), HandedOver(values), At(k.inboxes, id);
      assert c + h + (inbox + [msg]) == d + [msg];
      if id in k.waiting {
        assert inbox + [msg] == [msg];
        wakes := [Some(msg)];
        ListedOne(Some(msg));
      }
    }
  }

  lemma DeliverOk<L, M>(p: Program<L, M>, s: World<L, M>, id: Id, msg: M)
    requires s.queue != [] && ActorsOk(s) && s.queue[0].thunk == Do(Deliver(id, msg))
    ensures var r := Step(Running(p), s); ActorOk(r.app, Queued(r.queue, id), id)
  {
    var e, k := s.queue[0], s.app;
    var (app, calls) := Delivery(k, id, msg, e.at);
    assert ActorOk(k, Queued(s.queue, id), id);
    var values := DeliveredTo(k, Queued(s.queue, id), id, msg, e.at);
    assert Queued(s.queue, id) == Queued(s.queue[1..], id);
    if calls != [] {
      QueuedOne(Popped(s).(app := app), [], e.at, id, values[0]);
      assert [] + calls == calls;
    }
  }

  lemma KillOk<L, M>(p: Program<L, M>, s: World<L, M>, id: Id)
    requires s.queue != [] && ActorsOk(s) && s.queue[0].thunk == Do(Kill(id))
    ensures var r := Step(Running(p), s); ActorOk(r.app, Queued(r.queue, id), id)
  {
    assert ActorOk(s.app, Queued(s.queue, id), id);
  }

  /** Spawning keeps the invariant exactly if no wake-up is queued for the id and it is not waiting:
      a wake-up left over from before a kill would resume the new coroutine as well. */
  lemma SpawnOkIff<L, M>(p: Program<L, M>, s: World<L, M>, id: Id, local: L)
    requires s.queue != [] && ActorsOk(s) && s.queue[0].thunk == Do(Spawn(id, local))
    ensures var r := Step(Running(p), s);
            && ActorOk(r.app, Queued(r.queue, id), id) <==> SpawnSafe(s, id)
    ensures !SpawnSafe(s, id) && id !in s.app.waiting ==> |Queued(Step(Running(p), s).queue, id)| > 1
  {
    var e, k := s.queue[0], s.app;
    var start := Popped(s).(app := Birth(k, id, local));
    assert ActorOk(k, Queued(s.queue, id), id);
    assert Queued(s.queue, id) == Queued(s.queue[1..], id);
    QueuedOne(start, [], e.at, id, None);
    ListedOne<M>(None);
    var calls: seq<(real, Thunk<L, M>)> := [(e.at, Resume(id, None))];
    assert [] + calls == calls;
  }

  /** Spawns happen only for ids without a queued wake-up that are not waiting. */
  predicate SpawnsSafely<L, M>(s: World<L, M>) {
    s.queue != [] && s.queue[0].thunk.Do? && s.queue[0].thunk.call.Spawn? ==> SpawnSafe(s, s.queue[0].thunk.call.who)
  }

  lemma StepOk<L, M>(p: Program<L, M>, s: World<L, M>)
    requires s.queue != [] && ActorsOk(s) && SpawnsSafely(s)
    ensures ActorsOk(Step(Running(p), s))
  {
    var r := Step(Running(p), s);
    forall id ensures ActorOk(r.app, Queued(r.queue, id), id) {
      if id != About(s.queue[0].thunk) {
        OtherOk(p, s, id);
      } else {
        match s.queue[0].thunk
        case Resume(_, value) => ResumeOk(p, s, id, value);
        case Do(Deliver(_, msg)) => DeliverOk(p, s, id, msg);
        case Do(Kill(_)) => KillOk(p, s, id);
        case Do(Spawn(_, local)) => SpawnOkIff(p, s, id, local);
      }
    }
  }

  lemma NextSteps<A, T>(b: Behaviour<A, T>, s: State<A, T>, i: nat)
    requires s.queue != []
    ensures StepN(b, s, i + 1) == StepN(b, Step(b, s), i)
  {
  }

  lemma NoSteps<A, T>(b: Behaviour<A, T>, s: State<A, T>, n: nat)
    requires n == 0 || s.queue == []
    ensures StepN(b, s, n) == s
  {
  }

  /** The spawns among the next `n` events are safe. */
  ghost predicate SafeAlong<L, M>(p: Program<L, M>, s: World<L, M>, n: nat) {
    forall i :: 0 <= i < n ==> SpawnsSafely(StepN(Running(p), s, i))
  }

  lemma SafeOn<L, M>(p: Program<L, M>, s: World<L, M>, n: nat)
    requires 0 < n && s.queue != [] && SafeAlong(p, s, n)
    ensures SpawnsSafely(s) && SafeAlong(p, Step(Running(p), s), n - 1)
  {
    assert SpawnsSafely(StepN(Running(p), s, 0));
    forall i | 0 <= i < n - 1 ensures SpawnsSafely(StepN(Running(p), Step(Running(p), s), i)) {
      NextSteps(Running(p), s, i);
      assert SpawnsSafely(StepN(Running(p), s, i + 1));
    }
  }

  /** The invariant holds after any number of events, if spawns are safe. */
  lemma {:induction false} ActorsOkIfSafe<L, M>(p: Program<L, M>, s: World<L, M>, n: nat)
    requires ActorsOk(s) && SafeAlong(p, s, n)
    ensures ActorsOk(StepN(Running(p), s, n))
    decreases n
  {
    if n > 0 && s.queue != [] {
      SafeOn(p, s, n);
      StepOk(p, s);
      ActorsOkIfSafe(p, Step(Running(p), s), n - 1);
      NextSteps(Running(p), s, n - 1);
    } else {
      NoSteps(Running(p), s, n);
    }
  }

  // ---------------------------------------------------------------- each id spawned once

  /** An id that has never been spawned, and so has no record of deliveries, is unknown to the runtime. */
  predicate UnbornOk<L, M>(k: Kernel<L, M>, values: seq<Option<M>>, id: Id) {
    id !in k.delivered ==> id !in k.alive && id !in k.locals && id !in k.waiting && values == []
  }

  ghost predicate UnbornAreUnknown<L, M>(s: World<L, M>) {
    forall id :: UnbornOk(s.app, Queued(s.queue, id), id)
  }

  /** An id that is spawned has not been spawned before. */
  predicate SpawnsOnce<L, M>(s: World<L, M>) {
    s.queue != [] && s.queue[0].thunk.Do? && s.queue[0].thunk.call.Spawn? ==> s.queue[0].thunk.call.who !in s.app.delivered
  }

  lemma OnceIsSafe<L, M>(s: World<L, M>)
    requires UnbornAreUnknown(s) && SpawnsOnce(s)
    ensures SpawnsSafely(s)
  {
    if s.queue != [] && s.queue[0].thunk.Do? && s.queue[0].thunk.call.Spawn? {
      var id := s.queue[0].thunk.call.who;
      assert UnbornOk(s.app, Queued(s.queue, id), id);
    }
  }

  lemma UnbornElsewhere<L, M>(p: Program<L, M>, s: World<L, M>, id: Id)
    requires s.queue != [] && UnbornAreUnknown(s) && id != About(s.queue[0].thunk)
    ensures var r := Step(Running(p), s); UnbornOk(r.app, Queued(r.queue, id), id)
  {
    var e := s.queue[0];
    var (app, calls) := Effect(p, s.app, e.thunk, e.at);
    EffectElsewhere(p, s.app, e.thunk, e.at, id);
    QueuedOthers(State(e.at, s.queue[1..], s.count, app), calls, id);
    assert UnbornOk(s.app, Queued(s.queue, id), id);
  }

  lemma {:induction false} ScheduleAllApp<A, T>(s: State<A, T>, calls: seq<(real, T)>)
    ensures ScheduleAll(s, calls).app == s.app
    decreases |calls|
  {
    if calls != [] {
      ScheduleAllApp(Schedule(s, calls[0].0, calls[0].1), calls[1..]);
    }
  }

  lemma DeliveredStays<L, M>(p: Program<L, M>, k: Kernel<L, M>, thunk: Thunk<L, M>, now: real)
    ensures k.delivered.Keys <= Effect(p, k, thunk, now).0.delivered.Keys
  {
  }

  /** The id an event is about stays unknown, unless the event spawns it. */
  lemma UnbornHere<L, M>(p: Program<L, M>, s: World<L, M>)
    requires s.queue != [] && UnbornAreUnknown(s)
    ensures var r, id := Step(Running(p), s), About(s.queue[0].thunk); UnbornOk(r.app, Queued(r.queue, id), id)
  {
    var e, id := s.queue[0], About(s.queue[0].thunk);
    var (app, calls) := Effect(p, s.app, e.thunk, e.at);
    ScheduleAllApp(State(e.at, s.queue[1..], s.count, app), calls);
    DeliveredStays(p, s.app, e.thunk, e.at);
    if id !in app.delivered {
      UnbornQuiet(p, s, id);
    }
  }

  /** An event about an unknown id that does not spawn it does nothing to it. */
  lemma UnbornQuiet<L, M>(p: Program<L, M>, s: World<L, M>, id: Id)
    requires s.queue != [] && UnbornAreUnknown(s) && id == About(s.queue[0].thunk) && id !in s.app.delivered
    requires !(s.queue[0].thunk.Do? && s.queue[0].thunk.call.Spawn?)
    ensures var r := Step(Running(p), s); UnbornOk(r.app, Queued(r.queue, id), id)
  {
    var e := s.queue[0];
    assert UnbornOk(s.app, Queued(s.queue, id), id);
    assert Queued(s.queue, id) == [];
    assert e.thunk.Do?;
    assert Effect(p, s.app, e.thunk, e.at).1 == [];
  }

  lemma UnbornStep<L, M>(p: Program<L, M>, s: World<L, M>)
    requires s.queue != [] && UnbornAreUnknown(s)
    ensures UnbornAreUnknown(Step(Running(p), s))
  {
    var r := Step(Running(p), s);
    forall id ensures UnbornOk(r.app, Queued(r.queue, id), id) {
      if id != About(s.queue[0].thunk) {
        UnbornElsewhere(p, s, id);
      } else {
        UnbornHere(p, s);
      }
    }
  }

  /** Actors are in order, and nobody else is known. */
  ghost predicate AllOk<L, M>(s: World<L, M>) {
    match s
    case State(now, queue, count, app) =>
      ActorsOk(State(now, queue, count, app)) && UnbornAreUnknown(State(now, queue, count, app))
  }

  lemma StepOkOnce<L, M>(p: Program<L, M>, s: World<L, M>)
    requires s.queue != [] && AllOk(s) && SpawnsOnce(s)
    ensures AllOk(Step(Running(p), s))
  {
    OnceIsSafe(s);
    StepOk(p, s);
    UnbornStep(p, s);
  }

  /** Each id spawned by the next `n` events is spawned for the first time. */
  ghost predicate OnceAlong<L, M>(p: Program<L, M>, s: World<L, M>, n: nat) {
    forall i :: 0 <= i < n ==> SpawnsOnce(StepN(Running(p), s, i))
  }

  lemma OnceOn<L, M>(p: Program<L, M>, s: World<L, M>, n: nat)
    requires 0 < n && s.queue != [] && OnceAlong(p, s, n)
    ensures SpawnsOnce(s) && OnceAlong(p, Step(Running(p), s), n - 1)
  {
    assert SpawnsOnce(StepN(Running(p), s, 0));
    forall i | 0 <= i < n - 1 ensures SpawnsOnce(StepN(Running(p), Step(Running(p), s), i)) {
      NextSteps(Running(p), s, i);
      assert SpawnsOnce(StepN(Running(p), s, i + 1));
    }
  }

  /** If each id is spawned once, then after any number of events every live unfinished actor has exactly
      one queued wake-up or waits with an empty inbox, and has got its messages in the order of delivery. */
  lemma {:induction false} ActorsAlwaysOk<L, M>(p: Program<L, M>, s: World<L, M>, n: nat)
    requires AllOk(s) && OnceAlong(p, s, n)
    ensures AllOk(StepN(Running(p), s, n))
    decreases n
  {
    if n > 0 && s.queue != [] {
      OnceOn(p, s, n);
      StepOkOnce(p, s);
      ActorsAlwaysOk(p, Step(Running(p), s), n - 1);
      NextSteps(Running(p), s, n - 1);
    } else {
      NoSteps(Running(p), s, n);
    }
  }

  // ---------------------------------------------------------------- spawning again

  function Nobody<L, M>(): World<L, M> {
    State(0.0, [], 0, Kernel(map[], {}, {}, map[], map[], map[]))
  }

  lemma NobodyOk<L, M>()
    ensures AllOk(Nobody<L, M>()) && Orderly(Nobody<L, M>())
  {
  }

  /** An actor that does nothing but sleep. */
  function Sleeper(): Program<int, int> {
    (id, local, value, inbox, now) => Turn(local, 0, [], Sleep(10.0))
  }

  /** Actor 7 starts at time 0, is killed at time 1 while it sleeps, and is spawned again at time 2. */
  function KilledAndRespawned(): World<int, int> {
    State(0.0, [Event(0.0, 0, Do(Spawn(7, 0))), Event(1.0, 1, Do(Kill(7))), Event(2.0, 2, Do(Spawn(7, 0)))], 3,
          Nobody<int, int>().app)
  }

  lemma PlaceIs<T>(queue: seq<Event<T>>, e: Event<T>, i: nat)
    requires i <= |queue| && (forall j :: 0 <= j < i ==> !Earlier(e, queue[j])) && (i < |queue| ==> Earlier(e, queue[i]))
    ensures Enqueue(queue, e) == queue[..i] + [e] + queue[i..]
  {
  }

  /** A step that schedules one event. */
  lemma StepSchedulesOne(s: World<int, int>, k: Kernel<int, int>, rest: seq<Event<Thunk<int, int>>>,
                         call: (real, Thunk<int, int>), i: nat)
    requires s.queue != [] && rest == s.queue[1..] && i <= |rest| && call.0 >= s.queue[0].at
    requires Effect(Sleeper(), s.app, s.queue[0].thunk, s.queue[0].at) == (k, [call])
    requires forall j :: 0 <= j < i ==> !Earlier(Event(call.0, s.count, call.1), rest[j])
    requires i < |rest| ==> Earlier(Event(call.0, s.count, call.1), rest[i])
    ensures Step(Running(Sleeper()), s) ==
            State(s.queue[0].at, rest[..i] + [Event(call.0, s.count, call.1)] + rest[i..], s.count + 1, k)
  {
    var popped := State(s.queue[0].at, rest, s.count, k);
    PlaceIs(rest, Event(call.0, s.count, call.1), i);
    ScheduleOne(popped, call);
  }

  lemma ScheduleOne<A, T>(s: State<A, T>, call: (real, T))
    ensures ScheduleAll(s, [call]) == Schedule(s, call.0, call.1)
  {
    assert [call][1..] == [];
  }

  /** The kernel with actor 7 running, and with it dead. */
  function Running7(): Kernel<int, int> {
    Kernel(map[7 := 0], {7}, {}, map[], map[7 := []], map[7 := []])
  }

  function Asleep7(): Kernel<int, int> {
    Running7().(inboxes := map[7 := []])
  }

  function Dead7(): Kernel<int, int> {
    Asleep7().(locals := map[], alive := {})
  }

  lemma SpawnedAndAsleep() returns (s: World<int, int>)
    ensures s == StepN(Running(Sleeper()), KilledAndRespawned(), 2)
    ensures s == State(0.0, [Event(1.0, 1, Do(Kill(7))), Event(2.0, 2, Do(Spawn(7, 0))), Event(10.0, 4, Resume(7, None))],
                       5, Asleep7())
  {
    var b, s0 := Running(Sleeper()), KilledAndRespawned();
    assert Birth(s0.app, 7, 0) == Running7();
    StepSchedulesOne(s0, Running7(), s0.queue[1..], (0.0, Resume(7, None)), 0);
    var s1 := Step(b, s0);
    assert s1.queue == [Event(0.0, 3, Resume(7, None)), Event(1.0, 1, Do(Kill(7))), Event(2.0, 2, Do(Spawn(7, 0)))];
    SleeperSleeps();
    StepSchedulesOne(s1, Asleep7(), s1.queue[1..], (10.0, Resume(7, None)), 2);
    s := Step(b, s1);
    assert StepN(b, s1, 1) == StepN(b, s, 0);
  }

  lemma SleeperSleeps()
    ensures Effect(Sleeper(), Running7(), Resume(7, None), 0.0) == (Asleep7(), [(10.0, Resume(7, None))])
  {
    var k := Running7();
    assert At(k.consumed, 7) + Listed<int>(None) + At(k.inboxes, 7)[..0] == [];
    assert Midway(k, 7, 0, [], []) == Asleep7();
    assert Scheduled<int, int>([]) == [];
    var calls: seq<(real, Thunk<int, int>)> := [(10.0, Resume(7, None))];
    assert [] + calls == calls;
  }

  /** The kill takes the actor out, but not its wake-up. */
  lemma KilledAsleep(s2: World<int, int>) returns (s3: World<int, int>)
    requires s2 == State(0.0, [Event(1.0, 1, Do(Kill(7))), Event(2.0, 2, Do(Spawn(7, 0))), Event(10.0, 4, Resume(7, None))],
                         5, Asleep7())
    ensures s3 == Step(Running(Sleeper()), s2)
    ensures s3 == State(1.0, [Event(2.0, 2, Do(Spawn(7, 0))), Event(10.0, 4, Resume(7, None))], 5, Dead7())
  {
    s3 := Step(Running(Sleeper()), s2);
    assert Death(Asleep7(), 7) == Dead7();
  }

  lemma SpawnedAgain(s3: World<int, int>) returns (s4: World<int, int>)
    requires s3 == State(1.0, [Event(2.0, 2, Do(Spawn(7, 0))), Event(10.0, 4, Resume(7, None))], 5, Dead7())
    ensures s4 == Step(Running(Sleeper()), s3)
    ensures s4.queue == [Event(2.0, 5, Resume(7, None)), Event(10.0, 4, Resume(7, None))]
  {
    StepSchedulesOne(s3, Birth(Dead7(), 7, 0), s3.queue[1..], (2.0, Resume(7, None)), 0);
    s4 := Step(Running(Sleeper()), s3);
  }

  /** After the respawn two wake-ups are queued: the new coroutine will also be resumed at time 10,
      when the dead one was to wake up. */
  lemma RespawnWakesTwice()
    ensures ActorsOk(KilledAndRespawned())
    ensures |Queued(StepN(Running(Sleeper()), KilledAndRespawned(), 4).queue, 7)| == 2
  {
    var s2 := SpawnedAndAsleep();
    var s3 := KilledAsleep(s2);
    var s4 := SpawnedAgain(s3);
    TwoMore(Running(Sleeper()), KilledAndRespawned(), s2);
    TwoQueued(s4.queue);
  }

  lemma TwoQueued(queue: seq<Event<Thunk<int, int>>>)
    requires |queue| == 2 && Resumes(queue[0].thunk, 7) && Resumes(queue[1].thunk, 7)
    ensures |Queued(queue, 7)| == 2
  {
    assert |Queued(queue[1..], 7)| == 1;
  }

  lemma TwoMore<A, T>(b: Behaviour<A, T>, s: State<A, T>, s2: State<A, T>)
    requires s.queue != [] && Step(b, s).queue != [] && s2 == StepN(b, s, 2)
    requires s2.queue != [] && Step(b, s2).queue != []
    ensures StepN(b, s, 4) == Step(b, Step(b, s2))
  {
    var s1 := Step(b, s);
    assert s2 == StepN(b, s1, 1) == StepN(b, Step(b, s1), 0);
    var s3 := Step(b, s2);
    assert StepN(b, s, 4) == StepN(b, s1, 3) == StepN(b, s2, 2) == StepN(b, s3, 1) == StepN(b, Step(b, s3), 0);
  }
}
