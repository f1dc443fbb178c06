/** The runtime as it runs (sim_clock.py, `Runtime`): the event queue, the clock, and the tables of
    actors, updated in place, proved against `SimClock` and `Actors`. */
module VirtualTime {
  import opened Models
  import opened SimClock
  import opened Actors

  class Runtime<L, M> {
    const program: Program<L, M>
    var now: real
    var queue: seq<Event<Thunk<L, M>>>
    var count: nat
    var locals: map<Id, L>
    var alive: set<Id>
    var waiting: set<Id>
    var inboxes: map<Id, seq<M>>
    ghost var delivered: map<Id, seq<M>>
    ghost var consumed: map<Id, seq<M>>

    constructor (program: Program<L, M>)
      ensures this.program == program && View() == Nobody<L, M>()
      ensures AllOk(View()) && Orderly(View())
    {
      this.program := program;
      now, queue, count, locals, alive, waiting, inboxes := 0.0, [], 0, map[], {}, {}, map[];
      delivered, consumed := map[], map[];
      new;
      NobodyOk<L, M>();
    }

    ghost function KernelView(): Kernel<L, M>
      reads this
    {
      Kernel(locals, alive, waiting, inboxes, delivered, consumed)
    }

    ghost function View(): World<L, M>
      reads this
    {
      State(now, queue, count, KernelView())
    }

    /** `schedule_at`. */
    method ScheduleAt(at: real, thunk: Thunk<L, M>)
      modifies this`queue, this`count
      ensures View() == Schedule(old(View()), at, thunk)
      ensures Orderly(old(View())) ==> Orderly(View())
    {
      ghost var s := View();
      if Orderly(s) {
        ScheduleOrderly(s, at, thunk);
      }
      var when := at;
      if when < now {
        when := now;
      }
      queue := Enqueue(queue, Event(when, count, thunk));
      count := count + 1;
    }

    method ScheduleEach(calls: seq<(real, Thunk<L, M>)>)
      modifies this`queue, this`count
      ensures View() == ScheduleAll(old(View()), calls)
    {
      ghost var s := View();
      for i := 0 to |calls|
        invariant ScheduleAll(View(), calls[i..]) == ScheduleAll(s, calls)
      {
        ScheduleAt(calls[i].0, calls[i].1);
      }
    }

    /** `spawn`. */
    method Spawn(id: Id, local: L)
      modifies this
      ensures View() == Schedule(old(View()).(app := Birth(old(KernelView()), id, local)), old(now), Resume(id, None))
      ensures Orderly(old(View())) ==> Orderly(View())
    {
      delivered, consumed := delivered[id := At(inboxes, id)], consumed[id := []];
      locals, alive := locals[id := local], alive + {id};
      ScheduleAt(now, Resume(id, None));
    }

    /** `kill`. */
    method Kill(id: Id)
      modifies this`locals, this`alive, this`waiting, this`inboxes
      ensures View() == old(View()).(app := Death(old(KernelView()), id))
      ensures Orderly(old(View())) ==> Orderly(View())
    {
      alive, locals, waiting, inboxes := alive - {id}, locals - {id}, waiting - {id}, inboxes[id := []];
    }

    /** `deliver`. */
    method Deliver(id: Id, msg: M)
      modifies this
      ensures var (app, calls) := Delivery(old(KernelView()), id, msg, old(now));
              View() == ScheduleAll(old(View()).(app := app), calls)
      ensures Orderly(old(View())) ==> Orderly(View())
    {
      if id !in alive {
        return;
      }
      ghost var s := View();
      inboxes := inboxes[id := At(inboxes, id) + [msg]];
      delivered := delivered[id := At(delivered, id) + [msg]];
      if id in waiting {
        waiting := waiting - {id};
        var first := inboxes[id][0];
        inboxes := inboxes[id := inboxes[id][1..]];
        ghost var inbox := At(s.app.inboxes, id) + [msg];
        assert inboxes == s.app.inboxes[id := inbox[1..]];
        ScheduleOne(View(), (now, Resume(id, Some(first))));
        ScheduleAt(now, Resume(id, Some(first)));
      }
    }

    /** `_step`: resuming a coroutine and interpreting what it waits for. */
    method StepActor(id: Id, value: Option<M>)
      modifies this
      ensures var (app, calls) := Effect(program, old(KernelView()), Resume(id, value), old(now));
              View() == ScheduleAll(old(View()).(app := app), calls)
    {
      if id !in alive {
        return;
      }
      if id !in locals {
        return;
      }
      RunTurn(id, value);
    }

    /** `coro.send(value)` and what the coroutine then waits for. */
    method RunTurn(id: Id, value: Option<M>)
      requires id in alive && id in locals
      modifies this
      ensures var (app, calls) := TakeTurn(program, old(KernelView()), id, value, old(now));
              View() == ScheduleAll(old(View()).(app := app), calls)
    {
      ghost var s := View();
      var before := At(inboxes, id);
      var turn := program(id, locals[id], value, before, now);
      var taken := Min(turn.taken, |before|);
      ghost var got := At(consumed, id) + Listed(value) + before[..taken];
      locals, inboxes := locals[id := turn.local], inboxes[id := before[taken..]];
      consumed := consumed[id := got];
      assert KernelView() == Midway(s.app, id, turn.local, got, before[taken..]);
      ScheduleEach(Scheduled(turn.calls));
      ghost var mid := KernelView();
      ghost var ending := Ending(mid, id, turn.outcome, now);
      TurnThenEnding(s, mid, ending.0, Scheduled(turn.calls), ending.1);
      Await(id, turn.outcome);
    }

    /** What follows a turn: the coroutine ends, sleeps, or waits for a message. */
    method Await(id: Id, outcome: Outcome)
      modifies this`queue, this`count, this`locals, this`waiting, this`inboxes
      ensures var (app, calls) := Ending(old(KernelView()), id, outcome, old(now));
              View() == ScheduleAll(old(View()).(app := app), calls)
    {
      if outcome.Done? {
        locals := locals - {id};
      } else if outcome.Sleep? {
        ScheduleOne(View(), (now + outcome.dt, Resume(id, None)));
        ScheduleAt(now + outcome.dt, Resume(id, None));
      } else {
        var inbox := At(inboxes, id);
        if inbox == [] {
          waiting := waiting + {id};
        } else {
          inboxes := inboxes[id := inbox[1..]];
          ScheduleOne(View(), (now, Resume(id, Some(inbox[0]))));
          ScheduleAt(now, Resume(id, Some(inbox[0])));
        }
      }
    }

    /** Calling the thunk of an event. */
    method RunThunk(thunk: Thunk<L, M>)
      modifies this
      ensures var (app, calls) := Effect(program, old(KernelView()), thunk, old(now));
              View() == ScheduleAll(old(View()).(app := app), calls)
    {
      match thunk
      case Resume(id, value) => StepActor(id, value);
      case Do(Deliver(id, msg)) => Deliver(id, msg);
      case Do(Kill(id)) => Kill(id);
      case Do(Spawn(id, local)) =>
        ScheduleOne(View().(app := Birth(KernelView(), id, local)), (now, Resume(id, None)));
        Spawn(id, local);
    }

    /** Taking the first event off the queue and running it. */
    method RunFirst()
      requires queue != []
      modifies this
      ensures View() == Step(Running(program), old(View()))
    {
      ghost var s := View();
      StepIs(program, s);
      var e := queue[0];
      queue := queue[1..];
      now := e.at;
      assert View() == State(e.at, s.queue[1..], s.count, s.app);
      RunThunk(e.thunk);
      ghost var effect := Effect(program, s.app, e.thunk, e.at);
      assert View() == ScheduleAll(State(e.at, s.queue[1..], s.count, effect.0), effect.1);
    }

    /** `run_until`.  The loop ends if the run does, after `n` events; `Pacing.PacedRunsEnd` says when it does. */
    method RunUntil(t: real, ghost n: nat)
      requires exists end :: RunsIn(Running(program), View(), t, n, end)
      modifies this
      ensures RunsIn(Running(program), old(View()), t, n, View())
      ensures Orderly(old(View())) ==> Orderly(View())
    {
      ghost var s, k := View(), 0;
      ghost var end :| RunsIn(Running(program), s, t, n, end);
      while queue != [] && queue[0].at <= t
        invariant k <= n && RunsIn(Running(program), View(), t, n - k, end)
        decreases n - k
      {
        RunFirst();
        k := k + 1;
      }
      if t > now {
        now := t;
      }
      if Orderly(s) {
        RunOrderly(Running(program), s, t, n, View());
      }
    }
  }

  /** Scheduling what a turn asked for, and then what follows from how it ended. */
  lemma TurnThenEnding<A, T>(s: State<A, T>, mid: A, app: A, calls: seq<(real, T)>, more: seq<(real, T)>)
    ensures ScheduleAll(ScheduleAll(s.(app := mid), calls).(app := app), more) == ScheduleAll(s.(app := app), calls + more)
  {
    AppCommutes(s, mid, calls);
    AppCommutes(s, app, calls);
    ScheduleAllConcat(s.(app := app), calls, more);
  }

  lemma StepIs<L, M>(p: Program<L, M>, s: World<L, M>)
    requires s.queue != []
    ensures var (app, calls) := Effect(p, s.app, s.queue[0].thunk, s.queue[0].at);
            Step(Running(p), s) == ScheduleAll(State(s.queue[0].at, s.queue[1..], s.count, app), calls)
  {
  }

  /** Scheduling does not look at the application. */
  lemma {:induction false} AppCommutes<A, T>(s: State<A, T>, app: A, calls: seq<(real, T)>)
    ensures ScheduleAll(s.(app := app), calls) == ScheduleAll(s, calls).(app := app)
    decreases |calls|
  {
    if calls != [] {
      AppCommutes(Schedule(s, calls[0].0, calls[0].1), app, calls[1..]);
    }
  }
}
