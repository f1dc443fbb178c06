/** The virtual-time scheduler (sim_clock.py, `schedule_at` and `run_until`).  What an event does is a
    parameter: it changes the application state and schedules further events. */
module SimClock {

  datatype Event<T> = Event(at: real, num: nat, thunk: T)

  /** Events run in order of time, and of scheduling for equal times. */
  predicate Earlier<T>(a: Event<T>, b: Event<T>) {
    a.at < b.at || (a.at == b.at && a.num < b.num)
  }

  datatype State<A, T> = State(now: real, queue: seq<Event<T>>, count: nat, app: A)

  /** An event's effect: the new application state, and what it schedules, in order. */
  type Behaviour<!A, !T> = (A, T, real) -> (A, seq<(real, T)>)

  /** How many events of the queue come before `e`. */
  function Place<T>(queue: seq<Event<T>>, e: Event<T>): (i: nat)
    ensures i <= |queue|
    ensures forall j :: 0 <= j < i ==> !Earlier(e, queue[j])
    ensures i < |queue| ==> Earlier(e, queue[i])
  {
    if queue == [] || Earlier(e, queue[0]) then 0 else 1 + Place(queue[1..], e)
  }

  function Enqueue<T>(queue: seq<Event<T>>, e: Event<T>): (r: seq<Event<T>>)
    ensures |r| == |queue| + 1
  {
    queue[..Place(queue, e)] + [e] + queue[Place(queue, e)..]
  }

  /** `schedule_at`: nothing is scheduled in the past. */
  function Schedule<A, T>(s: State<A, T>, at: real, thunk: T): State<A, T> {
    s.(queue := Enqueue(s.queue, Event(if at < s.now then s.now else at, s.count, thunk)), count := s.count + 1)
  }

  function ScheduleAll<A, T>(s: State<A, T>, calls: seq<(real, T)>): State<A, T>
    decreases |calls|
  {
    if calls == [] then s else ScheduleAll(Schedule(s, calls[0].0, calls[0].1), calls[1..])
  }

  /** Running the first event of the queue. */
  function Step<A, T>(b: Behaviour<A, T>, s: State<A, T>): State<A, T>
    requires s.queue != []
  {
    var e := s.queue[0];
    var (app, calls) := b(s.app, e.thunk, e.at);
    ScheduleAll(State(e.at, s.queue[1..], s.count, app), calls)
  }

  /** `n` events in a row, all due by time `t`. */
  predicate Due<A, T>(b: Behaviour<A, T>, s: State<A, T>, t: real, n: nat)
    decreases n
  {
    n == 0 || (s.queue != [] && s.queue[0].at <= t && Due(b, Step(b, s), t, n - 1))
  }

  function StepN<A, T>(b: Behaviour<A, T>, s: State<A, T>, n: nat): State<A, T>
    decreases n
  {
    if n == 0 || s.queue == [] then s else StepN(b, Step(b, s), n - 1)
  }

  /** The events run by `n` steps. */
  function Trace<A, T>(b: Behaviour<A, T>, s: State<A, T>, n: nat): seq<Event<T>>
    decreases n
  {
    if n == 0 || s.queue == [] then [] else [s.queue[0]] + Trace(b, Step(b, s), n - 1)
  }

  predicate Quiet<A, T>(s: State<A, T>, t: real) {
    s.queue == [] || t < s.queue[0].at
  }

  /** The clock is set forward to `t`. */
  function Forward<A, T>(s: State<A, T>, t: real): State<A, T> {
    if t > s.now then s.(now := t) else s
  }

  /** `run_until(t)` from `s` runs `n` events and ends in `end`. */
  ghost predicate RunsIn<A, T>(b: Behaviour<A, T>, s: State<A, T>, t: real, n: nat, end: State<A, T>) {
    Due(b, s, t, n) && Quiet(StepN(b, s, n), t) && end == Forward(StepN(b, s, n), t)
  }

  // ---------------------------------------------------------------- increments

  lemma StepIgnoresClock<A, T>(b: Behaviour<A, T>, s: State<A, T>, t: real)
    requires s.queue != []
    ensures Step(b, Forward(s, t)) == Step(b, s)
  {
  }

  lemma {:induction false} ClockIsIrrelevant<A, T>(b: Behaviour<A, T>, s: State<A, T>, t: real, u: real, n: nat)
    ensures Due(b, Forward(s, t), u, n) == Due(b, s, u, n)
    ensures Trace(b, Forward(s, t), n) == Trace(b, s, n)
    ensures n > 0 && s.queue != [] ==> StepN(b, Forward(s, t), n) == StepN(b, s, n)
    ensures n == 0 || s.queue == [] ==> StepN(b, Forward(s, t), n) == Forward(s, t)
  {
    if s.queue != [] {
      StepIgnoresClock(b, s, t);
    }
  }

  /** Running to `t` passes through running to an earlier time `a`. */
  lemma {:induction false} Split<A, T>(b: Behaviour<A, T>, s: State<A, T>, a: real, t: real, n: nat, end: State<A, T>)
    returns (m: nat, mid: State<A, T>)
    requires a <= t && RunsIn(b, s, t, n, end)
    ensures m <= n && RunsIn(b, s, a, m, mid) && RunsIn(b, mid, t, n - m, end)
    ensures Trace(b, s, n) == Trace(b, s, m) + Trace(b, mid, n - m)
    decreases n
  {
    if Quiet(s, a) {
      m, mid := 0, Forward(s, a);
      ClockIsIrrelevant(b, s, a, t, n);
    } else {
      assert n > 0;
      m, mid := Split(b, Step(b, s), a, t, n - 1, end);
      m := m + 1;
    }
  }

  /** Running to `a` and then to `t` is running to `t`. */
  lemma {:induction false} Join<A, T>(b: Behaviour<A, T>, s: State<A, T>, a: real, t: real, m: nat, k: nat,
                                      mid: State<A, T>, end: State<A, T>)
    requires a <= t && RunsIn(b, s, a, m, mid) && RunsIn(b, mid, t, k, end)
    ensures RunsIn(b, s, t, m + k, end)
    ensures Trace(b, s, m + k) == Trace(b, s, m) + Trace(b, mid, k)
    decreases m
  {
    if m == 0 {
      ClockIsIrrelevant(b, s, a, t, k);
    } else {
      Join(b, Step(b, s), a, t, m - 1, k, mid, end);
    }
  }

  /** A run ends after the same events and in the same state however often it is asked for. */
  lemma {:induction false} RunIsUnique<A, T>(b: Behaviour<A, T>, s: State<A, T>, t: real, n: nat, m: nat,
                                             one: State<A, T>, two: State<A, T>)
    requires RunsIn(b, s, t, n, one) && RunsIn(b, s, t, m, two)
    ensures n == m && one == two
    decreases n
  {
    if n > 0 && m > 0 {
      RunIsUnique(b, Step(b, s), t, n - 1, m - 1, one, two);
    }
  }

  ghost predicate RunsTo<A(!new), T(!new)>(b: Behaviour<A, T>, s: State<A, T>, t: real, end: State<A, T>) {
    exists n :: RunsIn(b, s, t, n, end)
  }

  /** Running in increments and running at once come to the same. */
  lemma IncrementalIsBatch<A(!new), T(!new)>(b: Behaviour<A, T>, s: State<A, T>, a: real, t: real, end: State<A, T>)
    requires a <= t
    ensures RunsTo(b, s, t, end) <==> exists mid :: RunsTo(b, s, a, mid) && RunsTo(b, mid, t, end)
  {
    if RunsTo(b, s, t, end) {
      var n :| RunsIn(b, s, t, n, end);
      var m, mid := Split(b, s, a, t, n, end);
      assert RunsTo(b, s, a, mid) && RunsTo(b, mid, t, end);
    }
    if exists mid :: RunsTo(b, s, a, mid) && RunsTo(b, mid, t, end) {
      var mid :| RunsTo(b, s, a, mid) && RunsTo(b, mid, t, end);
      var m :| RunsIn(b, s, a, m, mid);
      var k :| RunsIn(b, mid, t, k, end);
      Join(b, s, a, t, m, k, mid, end);
    }
  }

  // ---------------------------------------------------------------- order

  /** The queue is in order, holds nothing past, and numbers are used once. */
  ghost predicate Orderly<A, T>(s: State<A, T>) {
    && (forall i, j :: 0 <= i < j < |s.queue| ==> Earlier(s.queue[i], s.queue[j]))
    && (forall i :: 0 <= i < |s.queue| ==> s.now <= s.queue[i].at && s.queue[i].num < s.count)
  }

  /** Scheduling keeps the queue orderly, and puts nothing before the events already numbered. */
  lemma ScheduleOrderly<A, T>(s: State<A, T>, at: real, thunk: T)
    requires Orderly(s)
    ensures Orderly(Schedule(s, at, thunk))
  {
    var e := Event(if at < s.now then s.now else at, s.count, thunk);
    var p, r := Place(s.queue, e), Enqueue(s.queue, e);
    forall i | 0 <= i < |r| ensures r[i] == if i < p then s.queue[i] else if i == p then e else s.queue[i - 1] {
    }
    forall i, j | 0 <= i < j < |r| ensures Earlier(r[i], r[j]) {
      EarlierStill(s.queue, e, i, j);
    }
  }

  /** Two events of the queue after event `e` has been put in. */
  lemma EarlierStill<T>(queue: seq<Event<T>>, e: Event<T>, i: nat, j: nat)
    requires forall a, b :: 0 <= a < b < |queue| ==> Earlier(queue[a], queue[b])
    requires forall a :: 0 <= a < |queue| ==> queue[a].num < e.num
    requires i < j <= |queue|
    ensures Earlier(Enqueue(queue, e)[i], Enqueue(queue, e)[j])
  {
    var p := Place(queue, e);
    if i < p < j {
      assert Earlier(queue[i], queue[j - 1]);
    } else if i == p {
      assert Earlier(e, queue[p]);
      assert p < j - 1 ==> Earlier(queue[p], queue[j - 1]);
    } else if j == p {
      assert !Earlier(e, queue[i]);
    }
  }

  /** Everything queued comes after event `e`. */
  ghost predicate AllAfter<A, T>(e: Event<T>, s: State<A, T>) {
    e.num < s.count && e.at <= s.now && forall i :: 0 <= i < |s.queue| ==> Earlier(e, s.queue[i])
  }

  lemma {:induction false} ScheduleAllOrderly<A, T>(s: State<A, T>, calls: seq<(real, T)>, e: Event<T>)
    requires Orderly(s) && AllAfter(e, s)
    ensures var r := ScheduleAll(s, calls); Orderly(r) && AllAfter(e, r) && r.now == s.now
    decreases |calls|
  {
    if calls != [] {
      ScheduleOrderly(s, calls[0].0, calls[0].1);
      ScheduleAllOrderly(Schedule(s, calls[0].0, calls[0].1), calls[1..], e);
    }
  }

  /** A step keeps the queue orderly, never turns the clock back, and leaves only later events. */
  lemma StepOrderly<A, T>(b: Behaviour<A, T>, s: State<A, T>)
    requires Orderly(s) && s.queue != []
    ensures Orderly(Step(b, s)) && AllAfter(s.queue[0], Step(b, s))
    ensures s.now <= Step(b, s).now == s.queue[0].at
  {
    var e := s.queue[0];
    var (app, calls) := b(s.app, e.thunk, e.at);
    ScheduleAllOrderly(State(e.at, s.queue[1..], s.count, app), calls, e);
  }

  /** The clock never goes back, and no queued event lies before it. */
  lemma {:induction false} RunOrderly<A, T>(b: Behaviour<A, T>, s: State<A, T>, t: real, n: nat, end: State<A, T>)
    requires Orderly(s) && RunsIn(b, s, t, n, end)
    ensures Orderly(end) && s.now <= end.now && t <= end.now
    decreases n
  {
    if n > 0 {
      StepOrderly(b, s);
      RunOrderly(b, Step(b, s), t, n - 1, end);
    } else {
      forall i | 0 <= i < |s.queue| ensures t < s.queue[i].at {
        assert i > 0 ==> Earlier(s.queue[0], s.queue[i]);
      }
    }
  }

  /** Events run in order of time, and of scheduling for equal times: whatever was queued when. */
  lemma {:induction false} TraceOrdered<A, T>(b: Behaviour<A, T>, s: State<A, T>, n: nat, i: nat, j: nat)
    requires Orderly(s) && i < j < |Trace(b, s, n)|
    ensures Earlier(Trace(b, s, n)[i], Trace(b, s, n)[j])
    decreases n
  {
    StepOrderly(b, s);
    if i > 0 {
      TraceOrdered(b, Step(b, s), n - 1, i - 1, j - 1);
    } else {
      FirstIsEarliest(b, Step(b, s), n - 1, j - 1, s.queue[0]);
    }
  }

  lemma {:induction false} FirstIsEarliest<A, T>(b: Behaviour<A, T>, s: State<A, T>, n: nat, j: nat, e: Event<T>)
    requires Orderly(s) && AllAfter(e, s) && j < |Trace(b, s, n)|
    ensures Earlier(e, Trace(b, s, n)[j])
    decreases n
  {
    if j > 0 {
      StepOrderly(b, s);
      FirstIsEarliest(b, Step(b, s), n - 1, j - 1, s.queue[0]);
    }
  }

  // ---------------------------------------------------------------- termination

  /** The weight of the queued events that are due before `limit`. */
  function Soon<T>(queue: seq<Event<T>>, limit: real, weight: T -> nat): nat {
    if queue == [] then 0
    else (if queue[0].at < limit then weight(queue[0].thunk) else 0) + Soon(queue[1..], limit, weight)
  }

  /** The weight of the calls for times before `limit`. */
  function SoonCalls<T>(calls: seq<(real, T)>, limit: real, weight: T -> nat): nat {
    if calls == [] then 0
    else (if calls[0].0 < limit then weight(calls[0].1) else 0) + SoonCalls(calls[1..], limit, weight)
  }

  lemma {:induction false} SoonConcat<T>(p: seq<Event<T>>, q: seq<Event<T>>, limit: real, weight: T -> nat)
    ensures Soon(p + q, limit, weight) == Soon(p, limit, weight) + Soon(q, limit, weight)
  {
    if p == [] {
      assert p + q == q;
    } else {
      assert (p + q)[1..] == p[1..] + q;
      SoonConcat(p[1..], q, limit, weight);
    }
  }

  lemma SoonEnqueue<T>(queue: seq<Event<T>>, e: Event<T>, limit: real, weight: T -> nat)
    ensures Soon(Enqueue(queue, e), limit, weight)
         == Soon(queue, limit, weight) + if e.at < limit then weight(e.thunk) else 0
  {
    var p := Place(queue, e);
    SoonConcat(queue[..p], queue[p..], limit, weight);
    SoonConcat(queue[..p] + [e], queue[p..], limit, weight);
    SoonConcat(queue[..p], [e], limit, weight);
    assert queue == queue[..p] + queue[p..];
    assert [e][1..] == [];
  }

  /** Scheduling adds at most the weight of what is scheduled. */
  lemma {:induction false} SoonScheduleAll<A, T>(s: State<A, T>, calls: seq<(real, T)>, limit: real, weight: T -> nat)
    ensures Soon(ScheduleAll(s, calls).queue, limit, weight)
         <= Soon(s.queue, limit, weight) + SoonCalls(calls, limit, weight)
    ensures ScheduleAll(s, calls).app == s.app
    decreases |calls|
  {
    if calls != [] {
      var at := if calls[0].0 < s.now then s.now else calls[0].0;
      SoonEnqueue(s.queue, Event(at, s.count, calls[0].1), limit, weight);
      SoonScheduleAll(Schedule(s, calls[0].0, calls[0].1), calls[1..], limit, weight);
    }
  }

  lemma {:induction false} NothingSoon<T>(calls: seq<(real, T)>, limit: real, weight: T -> nat)
    requires forall i :: 0 <= i < |calls| ==> calls[i].0 >= limit
    ensures SoonCalls(calls, limit, weight) == 0
  {
    if calls != [] {
      NothingSoon(calls[1..], limit, weight);
    }
  }

  /** Whatever is due within `delay` of a time is used up: each such event leaves less to do before then. */
  ghost predicate Shrinks<A(!new), T(!new)>(b: Behaviour<A, T>, delay: real, left: (State<A, T>, real) -> nat) {
    forall s, limit ::
      Orderly(s) && s.queue != [] && limit - delay <= s.queue[0].at < limit ==> left(Step(b, s), limit) < left(s, limit)
  }

  /** If what is to do within a span of `delay` shrinks with every event, `run_until` ends: `n` such spans reach
      from `from` past `t`. */
  lemma {:induction false} RunTerminates<A(!new), T(!new)>(b: Behaviour<A, T>, left: (State<A, T>, real) -> nat,
                                                           s: State<A, T>, t: real, delay: real, from: real, n: nat)
    returns (k: nat)
    requires 0.0 < delay && Shrinks(b, delay, left) && Orderly(s)
    requires s.queue != [] ==> from <= s.queue[0].at
    requires t < from + n as real * delay
    ensures RunsIn(b, s, t, k, Forward(StepN(b, s, k), t))
    decreases n, left(s, from + delay)
  {
    if Quiet(s, t) {
      k := 0;
    } else if s.queue[0].at < from + delay {
      StepOrderly(b, s);
      assert left(Step(b, s), from + delay) < left(s, from + delay);
      k := RunTerminates(b, left, Step(b, s), t, delay, from, n);
      k := k + 1;
    } else {
      Spans(from, delay, n, t, s.queue[0].at);
      k := RunTerminates(b, left, s, t, delay, from + delay, n - 1);
    }
  }

  lemma Spans(from: real, delay: real, n: nat, t: real, at: real)
    requires 0.0 < delay && from + delay <= at <= t < from + n as real * delay
    ensures n > 0 && t < from + delay + (n - 1) as real * delay
  {
  }

  /** Enough spans to get from `from` past `t`. */
  lemma SpansPast(from: real, delay: real, t: real) returns (n: nat)
    requires 0.0 < delay
    ensures t < from + n as real * delay
  {
    var q := (t - from) / delay;
    assert q * delay == t - from;
    n := if q < 0.0 then 0 else q.Floor + 1;
    assert q < n as real;
    assert (n as real - q) * delay > 0.0;
  }

  /** `run_until` ends from any orderly state. */
  lemma RunEnds<A(!new), T(!new)>(b: Behaviour<A, T>, left: (State<A, T>, real) -> nat, s: State<A, T>, t: real,
                                  delay: real)
    returns (k: nat, end: State<A, T>)
    requires 0.0 < delay && Shrinks(b, delay, left) && Orderly(s)
    ensures RunsIn(b, s, t, k, end) && Orderly(end)
  {
    var n := SpansPast(s.now, delay, t);
    k := RunTerminates(b, left, s, t, delay, s.now, n);
    end := Forward(StepN(b, s, k), t);
    RunOrderly(b, s, t, k, end);
  }

  /** Every event schedules only at least `delay` later. */
  ghost predicate Delays<A(!new), T(!new)>(b: Behaviour<A, T>, delay: real) {
    forall app, thunk, now, i :: 0 <= i < |b(app, thunk, now).1| ==> b(app, thunk, now).1[i].0 >= now + delay
  }

  /** How many events are due before `limit`. */
  function EventsLeft<A, T>(s: State<A, T>, limit: real): nat {
    Soon(s.queue, limit, _ => 1)
  }

  /** With a positive least delay, the number of events due within a span of that delay shrinks. */
  lemma DelaysShrink<A(!new), T(!new)>(b: Behaviour<A, T>, delay: real)
    requires 0.0 < delay && Delays(b, delay)
    ensures Shrinks(b, delay, EventsLeft)
  {
    forall s: State<A, T>, limit | Orderly(s) && s.queue != [] && limit - delay <= s.queue[0].at < limit
      ensures EventsLeft(Step(b, s), limit) < EventsLeft(s, limit)
    {
      var e := s.queue[0];
      var (app, calls) := b(s.app, e.thunk, e.at);
      forall i | 0 <= i < |calls| ensures calls[i].0 >= limit {
        assert b(s.app, e.thunk, e.at).1[i].0 >= e.at + delay;
      }
      NothingSoon(calls, limit, _ => 1);
      SoonScheduleAll(State(e.at, s.queue[1..], s.count, app), calls, limit, _ => 1);
    }
  }
}
