/** What an event of the runtime does, spelled out: everything an actor's turn asks for is queued, at the time asked for,
    and everything queued happens. */
module Turns {
  import opened Models
  import opened SimClock
  import opened Actors

  // ---------------------------------------------------------------- what is queued

  /** One event for every call, in the order of the calls: at the time asked for, or now if that is past. */
  function Numbered<T>(calls: seq<(real, T)>, now: real, first: nat): (events: seq<Event<T>>)
    ensures |events| == |calls|
  {
    seq(|calls|, i requires 0 <= i < |calls| =>
          Event(if calls[i].0 < now then now else calls[i].0, first + i, calls[i].1))
  }

  /** Queue `b` holds what `a` holds, and `more`. */
  ghost predicate Holds<T>(b: seq<T>, a: seq<T>, more: seq<T>) {
    multiset(b) == multiset(a + more)
  }

  lemma HoldsOn<T>(c: seq<T>, b: seq<T>, a: seq<T>, x: seq<T>, y: seq<T>)
    requires Holds(b, a, x) && Holds(c, b, y)
    ensures Holds(c, a, x + y)
  {
    assert multiset(b + y) == multiset(b) + multiset(y);
    assert a + (x + y) == (a + x) + y;
  }

  lemma HoldsAll<T>(b: seq<T>, a: seq<T>, more: seq<T>, e: T)
    requires Holds(b, a, more)
    ensures e in b <==> e in a || e in more
  {
    assert e in b <==> e in multiset(b);
    assert e in a + more <==> e in multiset(a + more);
  }

  lemma EnqueuedOne<T>(queue: seq<Event<T>>, e: Event<T>)
    ensures Holds(Enqueue(queue, e), queue, [e])
  {
    assert queue == queue[..Place(queue, e)] + queue[Place(queue, e)..];
  }

  lemma NumberedCons<T>(calls: seq<(real, T)>, now: real, first: nat, e: Event<T>, rest: seq<Event<T>>)
    requires calls != [] && e == Event(if calls[0].0 < now then now else calls[0].0, first, calls[0].1)
    requires rest == Numbered(calls[1..], now, first + 1)
    ensures Numbered(calls, now, first) == [e] + rest
  {
  }

  lemma ScheduledOne<A, T>(s: State<A, T>, at: real, thunk: T) returns (t: State<A, T>, e: Event<T>)
    ensures t == Schedule(s, at, thunk) && e == Event(if at < s.now then s.now else at, s.count, thunk)
    ensures Holds(t.queue, s.queue, [e]) && t.count == s.count + 1 && t.now == s.now && t.app == s.app
  {
    t, e := Schedule(s, at, thunk), Event(if at < s.now then s.now else at, s.count, thunk);
    EnqueuedOne(s.queue, e);
  }

  /** Scheduling adds exactly these events to the queue. */
  lemma {:induction false} AllQueued<A, T>(s: State<A, T>, calls: seq<(real, T)>) returns (more: seq<Event<T>>)
    ensures more == Numbered(calls, s.now, s.count) && Holds(ScheduleAll(s, calls).queue, s.queue, more)
    ensures var r := ScheduleAll(s, calls); r.count == s.count + |calls| && r.now == s.now && r.app == s.app
    decreases |calls|
  {
    if calls != [] {
      var t, e := ScheduledOne(s, calls[0].0, calls[0].1);
      var rest := AllQueued(t, calls[1..]);
      NumberedCons(calls, s.now, s.count, e, rest);
      more := [e] + rest;
      HoldsOn(ScheduleAll(t, calls[1..]).queue, t.queue, s.queue, [e], rest);
    } else {
      more := [];
      assert s.queue + [] == s.queue;
    }
  }

  /** A step takes the first event off the queue and adds what its effect schedules. */
  lemma StepQueues<A, T>(b: Behaviour<A, T>, s: State<A, T>) returns (calls: seq<(real, T)>, more: seq<Event<T>>)
    requires s.queue != []
    ensures calls == b(s.app, s.queue[0].thunk, s.queue[0].at).1 && more == Numbered(calls, s.queue[0].at, s.count)
    ensures Holds(Step(b, s).queue, s.queue[1..], more)
    ensures Step(b, s).now == s.queue[0].at && Step(b, s).app == b(s.app, s.queue[0].thunk, s.queue[0].at).0
  {
    var e := s.queue[0];
    calls := b(s.app, e.thunk, e.at).1;
    more := AllQueued(State(e.at, s.queue[1..], s.count, b(s.app, e.thunk, e.at).0), calls);
  }

  // ---------------------------------------------------------------- everything queued happens

  lemma StillQueued<A, T>(b: Behaviour<A, T>, s: State<A, T>, e: Event<T>)
    requires s.queue != [] && e in s.queue && e != s.queue[0]
    ensures e in Step(b, s).queue
  {
    assert s.queue == [s.queue[0]] + s.queue[1..];
    var calls, more := StepQueues(b, s);
    HoldsAll(Step(b, s).queue, s.queue[1..], more, e);
  }

  /** An event that is queued happens if it is due by the time the run ends, and is still queued then if it is not. */
  lemma {:induction false} QueuedHappens<A, T>(b: Behaviour<A, T>, s: State<A, T>, t: real, n: nat, end: State<A, T>,
                                               e: Event<T>)
    requires Orderly(s) && RunsIn(b, s, t, n, end) && e in s.queue
    ensures e.at <= t <==> e in Trace(b, s, n)
    ensures e.at > t <==> e in end.queue
    decreases n
  {
    if n == 0 {
      var i :| 0 <= i < |s.queue| && s.queue[i] == e;
      assert i > 0 ==> Earlier(s.queue[0], e);
    } else {
      StepOrderly(b, s);
      if e == s.queue[0] {
        GoneForGood(b, Step(b, s), t, n - 1, end, e);
      } else {
        StillQueued(b, s, e);
        QueuedHappens(b, Step(b, s), t, n - 1, end, e);
      }
    }
  }

  /** An event that has happened is never queued again. */
  lemma {:induction false} GoneForGood<A, T>(b: Behaviour<A, T>, s: State<A, T>, t: real, n: nat, end: State<A, T>,
                                             e: Event<T>)
    requires Orderly(s) && AllAfter(e, s) && RunsIn(b, s, t, n, end)
    ensures e !in end.queue
    decreases n
  {
    if n > 0 {
      var f := s.queue[0];
      var (app, calls) := b(s.app, f.thunk, f.at);
      ScheduleAllOrderly(State(f.at, s.queue[1..], s.count, app), calls, f);
      ScheduleAllOrderly(State(f.at, s.queue[1..], s.count, app), calls, e);
      GoneForGood(b, Step(b, s), t, n - 1, end, e);
    }
  }

  // ---------------------------------------------------------------- a turn

  /** The turn that the program takes when actor `id` is resumed by the first event. */
  function NextTurn<L, M>(p: Program<L, M>, s: World<L, M>, id: Id, value: Option<M>): Turn<L, M>
    requires s.queue != [] && id in s.app.locals
  {
    p(id, s.app.locals[id], value, if id in s.app.inboxes then s.app.inboxes[id] else [], s.queue[0].at)
  }

  /** What the turn leaves in the inbox. */
  function LeftOver<L, M>(k: Kernel<L, M>, id: Id, taken: nat): seq<M> {
    var inbox := if id in k.inboxes then k.inboxes[id] else [];
    if taken < |inbox| then inbox[taken..] else []
  }

  /** The wake-up that follows a turn: after the sleep, or at once with the first message left, or none. */
  function WakeUp<L, M>(id: Id, outcome: Outcome, left: seq<M>, now: real, num: nat): seq<Event<Thunk<L, M>>> {
    match outcome
    case Done => []
    case Sleep(dt) => [Event(if dt < 0.0 then now else now + dt, num, Resume(id, None))]
    case Receive => if left == [] then [] else [Event(now, num, Resume(id, Some(left[0])))]
  }

  /** The calls of a turn, as thunks. */
  function Thunks<L, M>(calls: seq<(real, Call<L, M>)>): (thunks: seq<(real, Thunk<L, M>)>)
    ensures |thunks| == |calls|
    ensures forall i :: 0 <= i < |calls| ==> thunks[i] == (calls[i].0, Do(calls[i].1))
  {
    seq(|calls|, i requires 0 <= i < |calls| => (calls[i].0, Do(calls[i].1)))
  }

  lemma NumberedConcat<T>(a: seq<(real, T)>, b: seq<(real, T)>, now: real, first: nat)
    ensures Numbered(a + b, now, first) == Numbered(a, now, first) + Numbered(b, now, first + |a|)
  {
  }

  /** When a live actor is resumed, every call of its turn is queued, at the time asked for or now, and then its wake-up;
      nothing else is queued, and nothing that was is lost. */
  lemma TurnQueues<L, M>(p: Program<L, M>, s: World<L, M>, id: Id, value: Option<M>)
    returns (more: seq<Event<Thunk<L, M>>>)
    requires s.queue != [] && s.queue[0].thunk == Resume(id, value) && id in s.app.alive && id in s.app.locals
    ensures Step(Running(p), s).now == s.queue[0].at && Holds(Step(Running(p), s).queue, s.queue[1..], more)
    ensures var now, turn := s.queue[0].at, NextTurn(p, s, id, value);
            more == Numbered(Thunks(turn.calls), now, s.count)
                    + WakeUp(id, turn.outcome, LeftOver(s.app, id, turn.taken), now, s.count + |turn.calls|)
  {
    var now, turn := s.queue[0].at, NextTurn(p, s, id, value);
    var left := LeftOver(s.app, id, turn.taken);
    var calls;
    calls, more := StepQueues(Running(p), s);
    var wake := TurnCalls(p, s.app, id, value, now, turn, left);
    TurnEvents(id, turn.outcome, left, Thunks(turn.calls), wake, now, s.count);
  }

  /** The events of a turn are those of its calls, and its wake-up. */
  lemma TurnEvents<L, M>(id: Id, outcome: Outcome, left: seq<M>, asked: seq<(real, Thunk<L, M>)>,
                         wake: seq<(real, Thunk<L, M>)>, now: real, num: nat)
    requires wake == match outcome
                     case Done => []
                     case Sleep(dt) => [(now + dt, Resume(id, None))]
                     case Receive => if left == [] then [] else [(now, Resume(id, Some(left[0])))]
    ensures Numbered(asked + wake, now, num) == Numbered(asked, now, num) + WakeUp(id, outcome, left, now, num + |asked|)
  {
    NumberedConcat(asked, wake, now, num);
    WakeUpIs(id, outcome, left, now, num + |asked|, wake);
  }

  lemma WakeUpIs<L, M>(id: Id, outcome: Outcome, left: seq<M>, now: real, num: nat, wake: seq<(real, Thunk<L, M>)>)
    requires wake == match outcome
                     case Done => []
                     case Sleep(dt) => [(now + dt, Resume(id, None))]
                     case Receive => if left == [] then [] else [(now, Resume(id, Some(left[0])))]
    ensures Numbered(wake, now, num) == WakeUp(id, outcome, left, now, num)
  {
  }

  /** What a turn schedules: its calls, and then what follows from how it ends. */
  lemma TurnCalls<L, M>(p: Program<L, M>, k: Kernel<L, M>, id: Id, value: Option<M>, now: real, turn: Turn<L, M>,
                        left: seq<M>)
    returns (wake: seq<(real, Thunk<L, M>)>)
    requires id in k.locals && turn == p(id, k.locals[id], value, if id in k.inboxes then k.inboxes[id] else [], now)
    requires left == LeftOver(k, id, turn.taken)
    ensures TakeTurn(p, k, id, value, now).1 == Thunks(turn.calls) + wake
    ensures wake == match turn.outcome
                    case Done => []
                    case Sleep(dt) => [(now + dt, Resume(id, None))]
                    case Receive => if left == [] then [] else [(now, Resume(id, Some(left[0])))]
  {
    var inbox := At(k.inboxes, id);
    var taken := Min(turn.taken, |inbox|);
    var got := At(k.consumed, id) + Listed(value) + inbox[..taken];
    wake := Ending(Midway(k, id, turn.local, got, inbox[taken..]), id, turn.outcome, now).1;
    assert Scheduled(turn.calls) == Thunks(turn.calls);
  }

  /** Whatever an actor asks for in a turn happens at the time asked for, or at once if that is past, in every run that goes
      on so long: messages are handed to the bus, and actors killed and spawned. */
  lemma AskedHappens<L, M>(p: Program<L, M>, s: World<L, M>, id: Id, value: Option<M>, t: real, n: nat, end: World<L, M>,
                           i: nat)
    returns (e: Event<Thunk<L, M>>)
    requires Orderly(s) && RunsIn(Running(p), s, t, n, end) && n > 0
    requires s.queue != [] && s.queue[0].thunk == Resume(id, value) && id in s.app.alive && id in s.app.locals
    requires i < |NextTurn(p, s, id, value).calls|
    ensures var call := NextTurn(p, s, id, value).calls[i];
            && e.thunk == Do(call.1) && e.at == (if call.0 < s.queue[0].at then s.queue[0].at else call.0)
    ensures e.at <= t ==> e in Trace(Running(p), s, n)
    ensures e.at > t ==> e in end.queue
  {
    var more := TurnQueues(p, s, id, value);
    e := more[i];
    HoldsAll(Step(Running(p), s).queue, s.queue[1..], more, e);
    StepOrderly(Running(p), s);
    QueuedHappens(Running(p), Step(Running(p), s), t, n - 1, end, e);
  }

  /** The turn leaves the actor its new state, unless it is its last, and takes from its inbox what it took and what it is
      woken with; the actor waits exactly if it asks for a message and there is none.  No other actor is touched. */
  lemma TurnUpdates<L, M>(p: Program<L, M>, s: World<L, M>, id: Id, value: Option<M>)
    requires s.queue != [] && s.queue[0].thunk == Resume(id, value) && id in s.app.alive && id in s.app.locals
    ensures var turn, k := NextTurn(p, s, id, value), Step(Running(p), s).app;
            var left := LeftOver(s.app, id, turn.taken);
            && k.locals == (if turn.outcome.Done? then s.app.locals - {id} else s.app.locals[id := turn.local])
            && k.inboxes == s.app.inboxes[id := if turn.outcome.Receive? && left != [] then left[1..] else left]
            && k.alive == s.app.alive
            && k.waiting == s.app.waiting + if turn.outcome.Receive? && left == [] then {id} else {}
  {
    var turn := NextTurn(p, s, id, value);
    var calls, more := StepQueues(Running(p), s);
    var inbox := At(s.app.inboxes, id);
    var left := LeftOver(s.app, id, turn.taken);
    assert left == inbox[Min(turn.taken, |inbox|)..];
    TurnKernel(p, s.app, id, value, s.queue[0].at, turn, left);
  }

  lemma TurnKernel<L, M>(p: Program<L, M>, k: Kernel<L, M>, id: Id, value: Option<M>, now: real, turn: Turn<L, M>,
                         left: seq<M>)
    requires id in k.locals && turn == p(id, k.locals[id], value, At(k.inboxes, id), now)
    requires left == At(k.inboxes, id)[Min(turn.taken, |At(k.inboxes, id)|)..]
    ensures Turned(k, id, turn, left, TakeTurn(p, k, id, value, now).0)
  {
    var got := At(k.consumed, id) + Listed(value) + At(k.inboxes, id)[..Min(turn.taken, |At(k.inboxes, id)|)];
    EndedKernel(k, id, turn, got, left, now);
  }

  /** The tables after a turn that leaves `left` in the inbox. */
  ghost predicate Turned<L, M>(k: Kernel<L, M>, id: Id, turn: Turn<L, M>, left: seq<M>, r: Kernel<L, M>) {
    && r.locals == (if turn.outcome.Done? then k.locals - {id} else k.locals[id := turn.local])
    && r.inboxes == k.inboxes[id := if turn.outcome.Receive? && left != [] then left[1..] else left]
    && r.alive == k.alive
    && r.waiting == k.waiting + if turn.outcome.Receive? && left == [] then {id} else {}
  }

  lemma EndedKernel<L, M>(k: Kernel<L, M>, id: Id, turn: Turn<L, M>, got: seq<M>, left: seq<M>, now: real)
    ensures Turned(k, id, turn, left, Ending(Midway(k, id, turn.local, got, left), id, turn.outcome, now).0)
  {
    assert k.locals[id := turn.local] - {id} == k.locals - {id};
    assert k.inboxes[id := left][id := if left == [] then left else left[1..]]
        == k.inboxes[id := if left == [] then left else left[1..]];
  }

  /** Resuming an actor that is dead or finished does nothing. */
  lemma NoTurn<L, M>(p: Program<L, M>, s: World<L, M>, id: Id, value: Option<M>)
    requires s.queue != [] && s.queue[0].thunk == Resume(id, value) && !(id in s.app.alive && id in s.app.locals)
    ensures Step(Running(p), s) == State(s.queue[0].at, s.queue[1..], s.count, s.app)
  {
  }

  // ---------------------------------------------------------------- messages, kills and spawns

  /** A message to a live actor goes to the end of its inbox; if the actor waits it is woken at once with the first message
      there.  A message to a dead actor is dropped. */
  lemma DeliveryIs<L, M>(p: Program<L, M>, s: World<L, M>, id: Id, msg: M) returns (more: seq<Event<Thunk<L, M>>>)
    requires s.queue != [] && s.queue[0].thunk == Do(Deliver(id, msg))
    ensures Holds(Step(Running(p), s).queue, s.queue[1..], more)
    ensures var inbox := (if id in s.app.inboxes then s.app.inboxes[id] else []) + [msg];
            more == if id in s.app.alive && id in s.app.waiting
                    then [Event(s.queue[0].at, s.count, Resume(id, Some(inbox[0])))] else []
    ensures var k := Step(Running(p), s).app;
            var inbox := (if id in s.app.inboxes then s.app.inboxes[id] else []) + [msg];
            && k.locals == s.app.locals && k.alive == s.app.alive
            && k.inboxes == (if id !in s.app.alive then s.app.inboxes
                             else s.app.inboxes[id := if id in s.app.waiting then inbox[1..] else inbox])
            && k.waiting == if id in s.app.alive then s.app.waiting - {id} else s.app.waiting
  {
    var calls;
    calls, more := StepQueues(Running(p), s);
  }

  /** A killed actor is out of every table, and what was in its inbox is gone; its wake-ups stay queued. */
  lemma KillIs<L, M>(p: Program<L, M>, s: World<L, M>, id: Id)
    requires s.queue != [] && s.queue[0].thunk == Do(Kill(id))
    ensures var r := Step(Running(p), s);
            && r.queue == s.queue[1..]
            && r.app.alive == s.app.alive - {id} && r.app.locals == s.app.locals - {id}
            && r.app.waiting == s.app.waiting - {id} && r.app.inboxes == s.app.inboxes[id := []]
  {
  }

  /** A spawned actor is alive in the state it is given, and is woken at once. */
  lemma SpawnIs<L, M>(p: Program<L, M>, s: World<L, M>, id: Id, local: L)
    requires s.queue != [] && s.queue[0].thunk == Do(Spawn(id, local))
    ensures var now, r := s.queue[0].at, Step(Running(p), s);
            && Holds(r.queue, s.queue[1..], [Event(now, s.count, Resume(id, None))])
            && r.app.alive == s.app.alive + {id} && r.app.locals == s.app.locals[id := local]
            && r.app.waiting == s.app.waiting && r.app.inboxes == s.app.inboxes
  {
    var calls, more := StepQueues(Running(p), s);
  }

  // ---------------------------------------------------------------- the dead

  /** The next event does not spawn actor `id`. */
  predicate NotSpawned<L, M>(s: World<L, M>, id: Id) {
    s.queue != [] && s.queue[0].thunk.Do? && s.queue[0].thunk.call.Spawn? ==> s.queue[0].thunk.call.who != id
  }

  lemma DeadStep<L, M>(p: Program<L, M>, s: World<L, M>, id: Id)
    requires s.queue != [] && id !in s.app.alive && NotSpawned(s, id)
    ensures var k := Step(Running(p), s).app;
            && id !in k.alive
            && At(k.delivered, id) == At(s.app.delivered, id) && At(k.consumed, id) == At(s.app.consumed, id)
  {
    var calls, more := StepQueues(Running(p), s);
    if id != About(s.queue[0].thunk) {
      EffectElsewhere(p, s.app, s.queue[0].thunk, s.queue[0].at, id);
    }
  }

  /** A dead actor takes no turn and gets no message until it is spawned again, whatever is queued for it. */
  lemma {:induction false} DeadStayDead<L, M>(p: Program<L, M>, s: World<L, M>, n: nat, id: Id)
    requires id !in s.app.alive && forall i :: 0 <= i < n ==> NotSpawned(StepN(Running(p), s, i), id)
    ensures var k := StepN(Running(p), s, n).app;
            && id !in k.alive
            && At(k.delivered, id) == At(s.app.delivered, id) && At(k.consumed, id) == At(s.app.consumed, id)
    decreases n
  {
    if n > 0 && s.queue != [] {
      assert NotSpawned(StepN(Running(p), s, 0), id);
      DeadStep(p, s, id);
      forall i | 0 <= i < n - 1 ensures NotSpawned(StepN(Running(p), Step(Running(p), s), i), id) {
        NextSteps(Running(p), s, i);
        assert NotSpawned(StepN(Running(p), s, i + 1), id);
      }
      DeadStayDead(p, Step(Running(p), s), n - 1, id);
      NextSteps(Running(p), s, n - 1);
    } else {
      NoSteps(Running(p), s, n);
    }
  }
}
