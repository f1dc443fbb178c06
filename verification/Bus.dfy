/** The message bus (bus/sim_bus.py): publishing to the subscribers of a topic, with latency, loss,
    duplication and partitions.  The random draws are parameters. */
module Bus {
  import opened Geo
  import opened Models
  import Delivery

  type Actor = nat

  /** The three draws for one subscriber, each in [0, 1). */
  datatype Draw = Draw(loss: real, jitter: real, again: real)
  {
    predicate Ok() {
      0.0 <= loss < 1.0 && 0.0 <= jitter < 1.0 && 0.0 <= again < 1.0
    }
  }

  datatype Setting = Setting(baseLatency: real, jitter: real, lossProb: real, dupProb: real)
  {
    predicate Ok() {
      0.0 <= baseLatency && 0.0 <= jitter && 0.0 <= lossProb <= 1.0 && 0.0 <= dupProb <= 1.0
    }
  }

  datatype Metrics = Metrics(published: nat, delivered: nat, droppedLoss: nat, droppedPartition: nat, duplicated: nat)

  /** A scheduled delivery. */
  datatype Parcel<M> = Parcel(to: Actor, msg: M, at: real, redelivery: bool)

  predicate Lost(b: Setting, draw: Draw) {
    b.lossProb > 0.0 && draw.loss < b.lossProb
  }

  predicate Doubled(b: Setting, draw: Draw) {
    b.dupProb > 0.0 && draw.again < b.dupProb
  }

  function Latency(b: Setting, draw: Draw): real {
    b.baseLatency + Times(draw.jitter, b.jitter)
  }

  /** `_deliver_to`: what is scheduled for one subscriber. */
  function ParcelsFor<M>(b: Setting, cut: set<Actor>, to: Actor, msg: M, now: real, draw: Draw): seq<Parcel<M>> {
    if to in cut || Lost(b, draw) then []
    else
      var first := Parcel(to, msg, now + Latency(b, draw), false);
      if Doubled(b, draw) then [first, Parcel(to, msg, now + Latency(b, draw) + b.baseLatency, true)] else [first]
  }

  /** How many of the first `n` subscribers are cut off, and how many others does the message not get to, or twice. */
  function CutOff(cut: set<Actor>, subs: seq<Actor>, n: nat): nat
    requires n <= |subs|
  {
    if n == 0 then 0 else CutOff(cut, subs, n - 1) + if subs[n - 1] in cut then 1 else 0
  }

  function LostOn(b: Setting, cut: set<Actor>, subs: seq<Actor>, draws: nat -> Draw, n: nat): nat
    requires n <= |subs|
  {
    if n == 0 then 0
    else LostOn(b, cut, subs, draws, n - 1)
         + if subs[n - 1] !in cut && 0.0 < b.lossProb && draws(n - 1).loss < b.lossProb then 1 else 0
  }

  function SentTwice(b: Setting, cut: set<Actor>, subs: seq<Actor>, draws: nat -> Draw, n: nat): nat
    requires n <= |subs|
  {
    if n == 0 then 0
    else SentTwice(b, cut, subs, draws, n - 1)
         + if subs[n - 1] !in cut && !(0.0 < b.lossProb && draws(n - 1).loss < b.lossProb)
              && 0.0 < b.dupProb && draws(n - 1).again < b.dupProb then 1 else 0
  }

  /** What is scheduled for the first `n` subscribers. */
  function ParcelsTo<M>(b: Setting, cut: set<Actor>, subs: seq<Actor>, msg: M, now: real, draws: nat -> Draw, n: nat)
    : seq<Parcel<M>>
    requires n <= |subs|
  {
    if n == 0 then []
    else ParcelsTo(b, cut, subs, msg, now, draws, n - 1) + ParcelsFor(b, cut, subs[n - 1], msg, now, draws(n - 1))
  }

  /** The parcels addressed to one actor. */
  function Addressed<M>(parcels: seq<Parcel<M>>, to: Actor): seq<Parcel<M>> {
    if parcels == [] then []
    else (if parcels[0].to == to then [parcels[0]] else []) + Addressed(parcels[1..], to)
  }

  lemma {:induction false} AddressedConcat<M>(a: seq<Parcel<M>>, b: seq<Parcel<M>>, to: Actor)
    ensures Addressed(a + b, to) == Addressed(a, to) + Addressed(b, to)
  {
    if a == [] {
      assert a + b == b;
    } else {
      assert a == [a[0]] + a[1..] && a + b == [a[0]] + (a[1..] + b);
      AddressedCons(a[0], a[1..], to);
      AddressedCons(a[0], a[1..] + b, to);
      AddressedConcat(a[1..], b, to);
    }
  }

  lemma AddressedCons<M>(p: Parcel<M>, rest: seq<Parcel<M>>, to: Actor)
    ensures Addressed([p] + rest, to) == (if p.to == to then [p] else []) + Addressed(rest, to)
  {
    assert ([p] + rest)[1..] == rest;
  }

  predicate Unrepeated(subs: seq<Actor>) {
    forall i, j :: 0 <= i < j < |subs| ==> subs[i] != subs[j]
  }

  lemma AddressedOne<M>(p: Parcel<M>, to: Actor)
    ensures Addressed([p], to) == if p.to == to then [p] else []
  {
    assert [p][1..] == [];
  }

  lemma AddressedFor<M>(b: Setting, cut: set<Actor>, to: Actor, msg: M, now: real, draw: Draw, other: Actor)
    ensures Addressed(ParcelsFor(b, cut, to, msg, now, draw), other) ==
            if other == to then ParcelsFor(b, cut, to, msg, now, draw) else []
  {
    if to !in cut && !Lost(b, draw) {
      var first := Parcel(to, msg, now + Latency(b, draw), false);
      var second := Parcel(to, msg, now + Latency(b, draw) + b.baseLatency, true);
      AddressedOne(first, other);
      AddressedOne(second, other);
      AddressedConcat([first], [second], other);
      assert [first] + [second] == [first, second];
    }
  }

  /** What one more subscriber adds. */
  lemma AddressedOneMore<M>(b: Setting, cut: set<Actor>, subs: seq<Actor>, msg: M, now: real, draws: nat -> Draw, n: nat,
                            to: Actor)
    requires n < |subs|
    ensures Addressed(ParcelsTo(b, cut, subs, msg, now, draws, n + 1), to) ==
            Addressed(ParcelsTo(b, cut, subs, msg, now, draws, n), to)
            + if subs[n] == to then ParcelsFor(b, cut, to, msg, now, draws(n)) else []
  {
    AddressedConcat(ParcelsTo(b, cut, subs, msg, now, draws, n), ParcelsFor(b, cut, subs[n], msg, now, draws(n)), to);
    AddressedFor(b, cut, subs[n], msg, now, draws(n), to);
  }

  /** Nobody but subscribers is sent anything. */
  lemma {:induction false} NoneForOthers<M>(b: Setting, cut: set<Actor>, subs: seq<Actor>, msg: M, now: real,
                                            draws: nat -> Draw, n: nat, to: Actor)
    requires n <= |subs| && forall i :: 0 <= i < n ==> subs[i] != to
    ensures Addressed(ParcelsTo(b, cut, subs, msg, now, draws, n), to) == []
  {
    if n > 0 {
      NoneForOthers(b, cut, subs, msg, now, draws, n - 1, to);
      AddressedOneMore(b, cut, subs, msg, now, draws, n - 1, to);
    }
  }

  /** Each subscriber is sent what is meant for it. */
  lemma {:induction false} AddressedTo<M>(b: Setting, cut: set<Actor>, subs: seq<Actor>, msg: M, now: real,
                                          draws: nat -> Draw, n: nat, i: nat)
    requires i < n <= |subs| && Unrepeated(subs)
    ensures Addressed(ParcelsTo(b, cut, subs, msg, now, draws, n), subs[i])
         == ParcelsFor(b, cut, subs[i], msg, now, draws(i))
  {
    AddressedOneMore(b, cut, subs, msg, now, draws, n - 1, subs[i]);
    if i < n - 1 {
      AddressedTo(b, cut, subs, msg, now, draws, n - 1, i);
    } else {
      NoneForOthers(b, cut, subs, msg, now, draws, n - 1, subs[i]);
    }
  }

  /** What the protocols assume of the bus. */
  function Promise(b: Setting, cut: set<Actor>): Delivery.Bus {
    Delivery.Bus(b.lossProb > 0.0 || cut != {}, b.dupProb > 0.0)
  }

  lemma LatencyBounds(b: Setting, draw: Draw)
    requires b.Ok() && draw.Ok()
    ensures b.baseLatency <= Latency(b, draw) <= b.baseLatency + b.jitter
  {
    Share(draw.jitter, b.jitter);
  }

  lemma NotNegative(f: real, x: real)
    requires 0.0 <= f && 0.0 <= x
    ensures 0.0 <= f * x
  {
  }

  lemma Share(f: real, x: real)
    requires 0.0 <= f < 1.0 && 0.0 <= x
    ensures 0.0 <= Times(f, x) <= x
  {
    NotNegative(f, x);
    NotNegative(1.0 - f, x);
    assert (1.0 - f) * x == x - f * x;
  }

  /** Every subscriber gets as many copies as the protocols assume: at least one unless messages can be
      lost, at most two, and two only if they can be duplicated; the first arrives within the latency
      bounds, and a duplicate one base latency after it.  Nobody else gets any. */
  lemma SubscribersAreServed<M>(b: Setting, cut: set<Actor>, subs: seq<Actor>, msg: M, now: real, draws: nat -> Draw,
                                to: Actor)
    requires b.Ok() && (forall i :: draws(i).Ok()) && Unrepeated(subs)
    ensures var mine := Addressed(ParcelsTo(b, cut, subs, msg, now, draws, |subs|), to);
            && (to !in subs ==> mine == [])
            && (to in subs ==> Delivery.Copies(Promise(b, cut), |mine|))
            && (mine != [] ==> to !in cut && now + b.baseLatency <= mine[0].at <= now + b.baseLatency + b.jitter
                               && !mine[0].redelivery && mine[0].msg == msg)
            && (|mine| == 2 ==> mine[1].at == mine[0].at + b.baseLatency && mine[1].redelivery && mine[1].msg == msg)
  {
    if to in subs {
      var i :| 0 <= i < |subs| && subs[i] == to;
      AddressedTo(b, cut, subs, msg, now, draws, |subs|, i);
      LatencyBounds(b, draws(i));
    } else {
      NoneForOthers(b, cut, subs, msg, now, draws, |subs|, to);
    }
  }

  /** A subscriber that is not cut off gets the message exactly if its draw is not below the loss probability, and gets it
      twice exactly if the next draw is below the probability of duplicates; it arrives after the base latency and the share
      drawn of the jitter. */
  lemma CopiesAreDrawn<M>(b: Setting, cut: set<Actor>, subs: seq<Actor>, msg: M, now: real, draws: nat -> Draw, i: nat)
    requires b.Ok() && (forall j :: draws(j).Ok()) && Unrepeated(subs) && i < |subs|
    ensures var mine := Addressed(ParcelsTo(b, cut, subs, msg, now, draws, |subs|), subs[i]);
            && (mine == [] <==> subs[i] in cut || draws(i).loss < b.lossProb)
            && (mine != [] ==> mine[0].at == now + b.baseLatency + draws(i).jitter * b.jitter
                               && (|mine| == 2 <==> draws(i).again < b.dupProb))
  {
    AddressedTo(b, cut, subs, msg, now, draws, |subs|, i);
  }

  class SimBus {
    const setting: Setting
    var subs: map<string, seq<Actor>>
    var partition: set<Actor>
    var metrics: Metrics

    constructor (setting: Setting)
      ensures this.setting == setting && Valid() && subs == map[] && partition == {}
    {
      this.setting, subs, partition := setting, map[], {};
      metrics := Metrics(0, 0, 0, 0, 0);
    }

    /** Nobody is subscribed twice to a topic. */
    ghost predicate Valid()
      reads this`subs
    {
      forall topic :: topic in subs ==> Unrepeated(subs[topic])
    }

    function Subscribers(topic: string): seq<Actor>
      reads this`subs
    {
      if topic in subs then subs[topic] else []
    }

    method Subscribe(topic: string, actor: Actor)
      requires Valid()
      modifies this`subs
      ensures Valid()
      ensures subs == old(subs)[topic := old(Subscribers(topic)) + if actor in old(Subscribers(topic)) then [] else [actor]]
    {
      var now := Subscribers(topic);
      if actor !in now {
        subs := subs[topic := now + [actor]];
      } else {
        subs := subs[topic := now];
        assert now + [] == now;
      }
    }

    method SetPartition(nodes: set<Actor>)
      modifies this`partition
      ensures partition == nodes
    {
      partition := nodes;
    }

    /** `publish`.  Every subscriber is accounted for: cut off, lost, or sent one original. */
    method Publish<M>(topic: string, sender: Option<Actor>, msg: M, now: real, draws: nat -> Draw)
      returns (parcels: seq<Parcel<M>>)
      modifies this`metrics
      ensures sender.Some? && sender.value in partition ==>
                && parcels == []
                && metrics == old(metrics).(published := old(metrics).published + 1,
                                            droppedPartition := old(metrics).droppedPartition + 1)
      ensures !(sender.Some? && sender.value in partition) ==>
                var to := Subscribers(topic);
                && parcels == ParcelsTo(setting, partition, to, msg, now, draws, |to|)
                && metrics == Metrics(old(metrics).published + 1, old(metrics).delivered,
                                      old(metrics).droppedLoss + LostOn(setting, partition, to, draws, |to|),
                                      old(metrics).droppedPartition + CutOff(partition, to, |to|),
                                      old(metrics).duplicated + SentTwice(setting, partition, to, draws, |to|))
                && |parcels| + CutOff(partition, to, |to|) + LostOn(setting, partition, to, draws, |to|)
                   == |to| + SentTwice(setting, partition, to, draws, |to|)
    {
      metrics := metrics.(published := metrics.published + 1);
      parcels := [];
      if sender.Some? && sender.value in partition {
        metrics := metrics.(droppedPartition := metrics.droppedPartition + 1);
        return;
      }
      var to := Subscribers(topic);
      ghost var m := metrics;
      for i := 0 to |to|
        invariant metrics == Metrics(m.published, m.delivered, m.droppedLoss + LostOn(setting, partition, to, draws, i),
                                     m.droppedPartition + CutOff(partition, to, i),
                                     m.duplicated + SentTwice(setting, partition, to, draws, i))
        invariant parcels == ParcelsTo(setting, partition, to, msg, now, draws, i)
        invariant |parcels| + CutOff(partition, to, i) + LostOn(setting, partition, to, draws, i)
                  == i + SentTwice(setting, partition, to, draws, i)
      {
        var more := DeliverTo(to[i], msg, now, draws(i));
        parcels := parcels + more;
      }
    }

    /** `_deliver_to`. */
    method DeliverTo<M>(actor: Actor, msg: M, now: real, draw: Draw) returns (parcels: seq<Parcel<M>>)
      modifies this`metrics
      ensures parcels == ParcelsFor(setting, partition, actor, msg, now, draw)
      ensures if actor in partition then
                parcels == [] && metrics == old(metrics).(droppedPartition := old(metrics).droppedPartition + 1)
              else if 0.0 < setting.lossProb && draw.loss < setting.lossProb then
                parcels == [] && metrics == old(metrics).(droppedLoss := old(metrics).droppedLoss + 1)
              else
                var at := now + setting.baseLatency + Times(draw.jitter, setting.jitter);
                if 0.0 < setting.dupProb && draw.again < setting.dupProb then
                  && parcels == [Parcel(actor, msg, at, false), Parcel(actor, msg, at + setting.baseLatency, true)]
                  && metrics == old(metrics).(duplicated := old(metrics).duplicated + 1)
                else parcels == [Parcel(actor, msg, at, false)] && metrics == old(metrics)
    {
      if actor in partition {
        metrics := metrics.(droppedPartition := metrics.droppedPartition + 1);
        return [];
      }
      if setting.lossProb > 0.0 && draw.loss < setting.lossProb {
        metrics := metrics.(droppedLoss := metrics.droppedLoss + 1);
        return [];
      }
      var latency := setting.baseLatency + Times(draw.jitter, setting.jitter);
      parcels := [Parcel(actor, msg, now + latency, false)];
      if setting.dupProb > 0.0 && draw.again < setting.dupProb {
        metrics := metrics.(duplicated := metrics.duplicated + 1);
        parcels := parcels + [Parcel(actor, msg, now + latency + setting.baseLatency, true)];
        assert parcels == [parcels[0], parcels[1]];
      }
    }

    /** A scheduled delivery comes due: the partition is looked at once more. */
    method ComeDue<M>(parcel: Parcel<M>) returns (arrives: bool)
      modifies this`metrics
      ensures arrives <==> parcel.to !in partition
      ensures metrics == if arrives then old(metrics).(delivered := old(metrics).delivered + 1)
                         else old(metrics).(droppedPartition := old(metrics).droppedPartition + 1)
    {
      if parcel.to in partition {
        metrics := metrics.(droppedPartition := metrics.droppedPartition + 1);
        return false;
      }
      metrics := metrics.(delivered := metrics.delivered + 1);
      return true;
    }
  }
}
