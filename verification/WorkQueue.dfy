/** A worker's request queue (worker.py, `_ingest`, `_process_batch`, `_reroute`, `_maybe_spill`) as
    functions on values: deduplication, first-come first-served work, and shedding from the back. */
module WorkQueue {
  import opened Models
  import opened Sharding

  /** What queueing needs to know of a request. */
  datatype Req = Req(id: int, cell: Option<Cell>)

  /** `decided` records the requests this worker has assigned or rejected. */
  datatype Queue = Queue(pending: seq<Req>, seen: set<int>, decided: set<int>)

  function Ids(rs: seq<Req>): set<int> {
    set i | 0 <= i < |rs| :: rs[i].id
  }

  predicate Unrepeated(rs: seq<Req>) {
    forall i, j :: 0 <= i < j < |rs| ==> rs[i].id != rs[j].id
  }

  /** A request message: repeated deliveries are ignored. */
  function Receive(q: Queue, r: Req): Queue {
    if r.id in q.seen then q else q.(pending := q.pending + [r], seen := q.seen + {r.id})
  }

  function ReceiveAll(q: Queue, rs: seq<Req>): Queue {
    if rs == [] then q else Receive(ReceiveAll(q, rs[..|rs| - 1]), rs[|rs| - 1])
  }

  datatype Fate = Kept | Rerouted(to: Node)

  /** Whether worker `me` decides a request itself, by the shard map it knows. */
  function FateOf(me: Node, r: Req, m: Option<ShardMap>): Fate {
    var owner := KnownOwner(m, r.cell);
    if owner.Some? && owner.value != me then Rerouted(owner.value) else Kept
  }

  /** Map `m` gives the cell to node `n`, which is not `me`. */
  predicate OwnedElsewhere(m: Option<ShardMap>, cell: Option<Cell>, me: Node, n: Node) {
    m.Some? && cell.Some? && cell.value in m.value.cellOwner && m.value.cellOwner[cell.value] == n && n != me
  }

  /** A request goes to another node exactly if that is known to own its cell. */
  lemma ReroutedIff(me: Node, r: Req, m: Option<ShardMap>, n: Node)
    ensures FateOf(me, r, m) == Rerouted(n) <==> OwnedElsewhere(m, r.cell, me, n)
  {
  }

  /** Working off the first request. */
  function ProcessFirst(q: Queue, me: Node, m: Option<ShardMap>): Queue
    requires q.pending != []
  {
    var r := q.pending[0];
    if FateOf(me, r, m).Kept? then q.(pending := q.pending[1..], decided := q.decided + {r.id})
    else q.(pending := q.pending[1..], seen := q.seen - {r.id})
  }

  /** `_process_batch`: up to `budget` requests. */
  function Batch(q: Queue, me: Node, m: Option<ShardMap>, budget: nat): Queue
    decreases budget
  {
    if budget == 0 || q.pending == [] then q else Batch(ProcessFirst(q, me, m), me, m, budget - 1)
  }

  /** Taking the last request out of the queue. */
  function DropLast(q: Queue): Queue
    requires q.pending != []
  {
    var n := |q.pending| - 1;
    q.(pending := q.pending[..n], seen := q.seen - {q.pending[n].id})
  }

  /** `_maybe_spill`: the last requests go until no more than `high` are left. */
  function SpillBack(q: Queue, high: nat): Queue
    decreases |q.pending|
  {
    if |q.pending| <= high then q else SpillBack(DropLast(q), high)
  }

  // ---------------------------------------------------------------- the invariant

  /** `seen` is made up of the pending requests and the decided ones, and nothing is pending twice. */
  predicate QueueOk(q: Queue) {
    && Unrepeated(q.pending)
    && q.seen == Ids(q.pending) + q.decided
    && Ids(q.pending) !! q.decided
  }

  lemma IdsSnoc(rs: seq<Req>, r: Req)
    ensures Ids(rs + [r]) == Ids(rs) + {r.id}
  {
    var t := rs + [r];
    forall x | x in Ids(rs) + {r.id} ensures x in Ids(t) {
      if x == r.id {
        assert t[|rs|].id == x;
      } else {
        var i :| 0 <= i < |rs| && rs[i].id == x;
        assert t[i].id == x;
      }
    }
    forall x | x in Ids(t) ensures x in Ids(rs) + {r.id} {
      var i :| 0 <= i < |t| && t[i].id == x;
      assert i < |rs| ==> rs[i].id == x;
    }
  }

  lemma IdsCons(r: Req, rs: seq<Req>)
    ensures Ids([r] + rs) == {r.id} + Ids(rs)
  {
    var t := [r] + rs;
    forall x | x in {r.id} + Ids(rs) ensures x in Ids(t) {
      if x == r.id {
        assert t[0].id == x;
      } else {
        var i :| 0 <= i < |rs| && rs[i].id == x;
        assert t[i + 1].id == x;
      }
    }
    forall x | x in Ids(t) ensures x in {r.id} + Ids(rs) {
      var i :| 0 <= i < |t| && t[i].id == x;
      assert i > 0 ==> rs[i - 1].id == x;
    }
  }

  lemma ReceiveOk(q: Queue, r: Req)
    requires QueueOk(q)
    ensures QueueOk(Receive(q, r)) && Receive(q, r).decided == q.decided
  {
    IdsSnoc(q.pending, r);
  }

  lemma {:induction false} ReceiveAllOk(q: Queue, rs: seq<Req>)
    requires QueueOk(q)
    ensures QueueOk(ReceiveAll(q, rs)) && ReceiveAll(q, rs).decided == q.decided
  {
    if rs != [] {
      ReceiveAllOk(q, rs[..|rs| - 1]);
      ReceiveOk(ReceiveAll(q, rs[..|rs| - 1]), rs[|rs| - 1]);
    }
  }

  lemma ProcessOk(q: Queue, me: Node, m: Option<ShardMap>)
    requires QueueOk(q) && q.pending != []
    ensures QueueOk(ProcessFirst(q, me, m)) && q.pending[0].id !in q.decided
    ensures q.decided <= ProcessFirst(q, me, m).decided
  {
    var r, rest := q.pending[0], q.pending[1..];
    assert q.pending == [r] + rest;
    IdsCons(r, rest);
    forall i, j | 0 <= i < j < |rest| ensures rest[i].id != rest[j].id {
      assert q.pending[i + 1].id != q.pending[j + 1].id;
    }
    assert r.id !in Ids(rest) by {
      forall i | 0 <= i < |rest| ensures rest[i].id != r.id {
        assert q.pending[0].id != q.pending[i + 1].id;
      }
    }
  }

  lemma {:induction false} BatchOk(q: Queue, me: Node, m: Option<ShardMap>, budget: nat)
    requires QueueOk(q)
    ensures QueueOk(Batch(q, me, m, budget)) && q.decided <= Batch(q, me, m, budget).decided
    decreases budget
  {
    if budget > 0 && q.pending != [] {
      ProcessOk(q, me, m);
      BatchOk(ProcessFirst(q, me, m), me, m, budget - 1);
    }
  }

  lemma DropLastOk(q: Queue)
    requires QueueOk(q) && q.pending != []
    ensures QueueOk(DropLast(q))
  {
    var n := |q.pending| - 1;
    var front, last := q.pending[..n], q.pending[n];
    assert q.pending == front + [last];
    IdsSnoc(front, last);
    assert last.id !in Ids(front);
  }

  lemma {:induction false} SpillOk(q: Queue, high: nat)
    requires QueueOk(q)
    ensures QueueOk(SpillBack(q, high)) && SpillBack(q, high).decided == q.decided
    decreases |q.pending|
  {
    if |q.pending| > high {
      DropLastOk(q);
      SpillOk(DropLast(q), high);
    }
  }

  // ---------------------------------------------------------------- a round

  /** What a worker is given in one round: the requests that have arrived and the map it knows. */
  datatype Input = Input(arrivals: seq<Req>, map_: Option<ShardMap>)

  /** The queue once everything that has arrived is in it. */
  function Filled(q: Queue, input: Input): Queue {
    ReceiveAll(q, input.arrivals)
  }

  function Round(q: Queue, me: Node, input: Input, throughput: nat, high: nat): Queue {
    SpillBack(Batch(Filled(q, input), me, input.map_, throughput), high)
  }

  function Least(a: nat, b: nat): nat {
    if a < b then a else b
  }

  /** The requests worked off in a round. */
  function Worked(q: Queue, input: Input, throughput: nat): seq<Req> {
    Filled(q, input).pending[..Least(throughput, |Filled(q, input).pending|)]
  }

  /** The requests spilled in a round. */
  function Shed(q: Queue, input: Input, throughput: nat, high: nat): seq<Req> {
    var rest := Filled(q, input).pending[Least(throughput, |Filled(q, input).pending|)..];
    rest[Least(high, |rest|)..]
  }

  /** A round keeps the queue in order. */
  lemma RoundOk(q: Queue, me: Node, input: Input, throughput: nat, high: nat)
    requires QueueOk(q)
    ensures QueueOk(Round(q, me, input, throughput, high))
    ensures q.decided <= Round(q, me, input, throughput, high).decided
    ensures |Round(q, me, input, throughput, high).pending| <= high
  {
    ReceiveAllOk(q, input.arrivals);
    BatchOk(Filled(q, input), me, input.map_, throughput);
    SpillOk(Batch(Filled(q, input), me, input.map_, throughput), high);
    SpillIs(Batch(Filled(q, input), me, input.map_, throughput), high);
  }

  lemma {:induction false} SpillIs(q: Queue, high: nat)
    ensures SpillBack(q, high).pending == q.pending[..Least(high, |q.pending|)]
    decreases |q.pending|
  {
    if |q.pending| > high {
      SpillIs(DropLast(q), high);
      assert q.pending[..|q.pending| - 1][..high] == q.pending[..high];
    }
  }

  lemma {:induction false} BatchIs(q: Queue, me: Node, m: Option<ShardMap>, budget: nat)
    ensures Batch(q, me, m, budget).pending == q.pending[Least(budget, |q.pending|)..]
    decreases budget
  {
    if budget > 0 && q.pending != [] {
      BatchIs(ProcessFirst(q, me, m), me, m, budget - 1);
      assert q.pending[1..][Least(budget - 1, |q.pending| - 1)..] == q.pending[Least(budget, |q.pending|)..];
    }
  }

  lemma {:induction false} ReceiveAllExtends(q: Queue, rs: seq<Req>)
    ensures |q.pending| <= |ReceiveAll(q, rs).pending|
    ensures ReceiveAll(q, rs).pending[..|q.pending|] == q.pending
  {
    if rs != [] {
      ReceiveAllExtends(q, rs[..|rs| - 1]);
    }
  }

  /** What a round does to the queue: the front is worked off, the back beyond the mark is shed. */
  lemma RoundIs(q: Queue, me: Node, input: Input, throughput: nat, high: nat)
    ensures Filled(q, input).pending
         == Worked(q, input, throughput) + Round(q, me, input, throughput, high).pending + Shed(q, input, throughput, high)
  {
    BatchIs(Filled(q, input), me, input.map_, throughput);
    SpillIs(Batch(Filled(q, input), me, input.map_, throughput), high);
  }

  function Rounds(q: Queue, me: Node, inputs: seq<Input>, throughput: nat, high: nat): Queue {
    if inputs == [] then q
    else Round(Rounds(q, me, inputs[..|inputs| - 1], throughput, high), me, inputs[|inputs| - 1], throughput, high)
  }

  lemma {:induction false} RoundsOk(q: Queue, me: Node, inputs: seq<Input>, throughput: nat, high: nat)
    requires QueueOk(q)
    ensures QueueOk(Rounds(q, me, inputs, throughput, high))
  {
    if inputs != [] {
      RoundsOk(q, me, inputs[..|inputs| - 1], throughput, high);
      RoundOk(Rounds(q, me, inputs[..|inputs| - 1], throughput, high), me, inputs[|inputs| - 1], throughput, high);
    }
  }

  // ---------------------------------------------------------------- latency

  /** One round moves a request that survived a spill forward by the throughput, or works it off. */
  lemma SurvivorMoves(q: Queue, me: Node, input: Input, throughput: nat, high: nat, p: nat)
    requires |q.pending| <= high && p < |q.pending|
    ensures var r, q' := q.pending[p], Round(q, me, input, throughput, high);
            if p < throughput then r in Worked(q, input, throughput)
            else p - throughput < |q'.pending| && q'.pending[p - throughput] == r
  {
    ReceiveAllExtends(q, input.arrivals);
    assert Filled(q, input).pending[p] == q.pending[p];
    if p < throughput {
      assert Worked(q, input, throughput)[p] == q.pending[p];
    } else {
      BatchIs(Filled(q, input), me, input.map_, throughput);
      SpillIs(Batch(Filled(q, input), me, input.map_, throughput), high);
    }
  }

  /** After `k` rounds a survivor is `k * throughput` places further forward. */
  lemma {:induction false} SurvivorAt(q: Queue, me: Node, inputs: seq<Input>, throughput: nat, high: nat, p: nat)
    requires |q.pending| <= high && p < |q.pending| && |inputs| * throughput <= p
    ensures var q' := Rounds(q, me, inputs, throughput, high);
            && |q'.pending| <= high
            && p - |inputs| * throughput < |q'.pending|
            && q'.pending[p - |inputs| * throughput] == q.pending[p]
  {
    if inputs != [] {
      var front, last := inputs[..|inputs| - 1], inputs[|inputs| - 1];
      assert |inputs| * throughput == |front| * throughput + throughput;
      SurvivorAt(q, me, front, throughput, high, p);
      var before := Rounds(q, me, front, throughput, high);
      SurvivorMoves(before, me, last, throughput, high, p - |front| * throughput);
      SpillIs(Batch(Filled(before, last), me, last.map_, throughput), high);
    }
  }

  /** The round in which place `p` is reached. */
  lemma {:induction false} RoundFor(p: nat, throughput: nat) returns (k: nat)
    requires throughput > 0
    ensures k * throughput <= p < k * throughput + throughput
  {
    if p < throughput {
      k := 0;
    } else {
      k := RoundFor(p - throughput, throughput);
      assert (k + 1) * throughput == k * throughput + throughput;
      k := k + 1;
    }
  }

  lemma ProductsGrow(n: nat, k: nat, throughput: nat)
    requires n <= k
    ensures n * throughput <= k * throughput
  {
  }

  lemma Fewer(k: nat, n: nat, throughput: nat)
    requires k * throughput < n * throughput
    ensures k < n
  {
    if n <= k {
      ProductsGrow(n, k, throughput);
    }
  }

  /** The request at place `p` is neither worked off nor shed in round `j`. */
  ghost predicate StaysIn(q: Queue, me: Node, inputs: seq<Input>, throughput: nat, high: nat, p: nat, j: nat)
    requires p < |q.pending| && j < |inputs|
  {
    var before := Rounds(q, me, inputs[..j], throughput, high);
    && q.pending[p].id !in Ids(Worked(before, inputs[j], throughput))
    && q.pending[p].id !in Ids(Shed(before, inputs[j], throughput, high))
  }

  lemma SurvivorStaysIn(q: Queue, me: Node, inputs: seq<Input>, throughput: nat, high: nat, p: nat, j: nat)
    requires QueueOk(q) && |q.pending| <= high && p < |q.pending| && j < |inputs|
    requires j * throughput + throughput <= p
    ensures StaysIn(q, me, inputs, throughput, high, p, j)
  {
    RoundsOk(q, me, inputs[..j], throughput, high);
    SurvivorAt(q, me, inputs[..j], throughput, high, p);
    SurvivorStays(Rounds(q, me, inputs[..j], throughput, high), me, inputs[j], throughput, high, p - j * throughput);
  }

  /** A request that survived a spill is never spilled later: it is worked off, decided or rerouted,
      within as many rounds as it takes to work off a queue at the high-water mark. */
  lemma SurvivorIsWorkedOff(q: Queue, me: Node, inputs: seq<Input>, throughput: nat, high: nat, p: nat) returns (k: nat)
    requires QueueOk(q) && throughput > 0 && |q.pending| <= high && p < |q.pending| && high <= |inputs| * throughput
    ensures k < |inputs|
    ensures q.pending[p] in Worked(Rounds(q, me, inputs[..k], throughput, high), inputs[k], throughput)
    ensures forall j :: 0 <= j < k ==> StaysIn(q, me, inputs, throughput, high, p, j)
  {
    k := RoundFor(p, throughput);
    Fewer(k, |inputs|, throughput);
    SurvivorAt(q, me, inputs[..k], throughput, high, p);
    SurvivorMoves(Rounds(q, me, inputs[..k], throughput, high), me, inputs[k], throughput, high, p - k * throughput);
    forall j | 0 <= j < k ensures StaysIn(q, me, inputs, throughput, high, p, j) {
      Earlier(j, k, throughput, p);
      SurvivorStaysIn(q, me, inputs, throughput, high, p, j);
    }
  }

  lemma Earlier(j: nat, k: nat, throughput: nat, p: nat)
    requires j < k && k * throughput <= p
    ensures j * throughput + throughput <= p
  {
    assert (j + 1) * throughput <= k * throughput;
  }

  /** A survivor not worked off in a round is the only request of its id, and stays in the queue. */
  lemma SurvivorStays(q: Queue, me: Node, input: Input, throughput: nat, high: nat, p: nat)
    requires QueueOk(q) && |q.pending| <= high && throughput <= p < |q.pending|
    ensures q.pending[p].id !in Ids(Worked(q, input, throughput))
    ensures q.pending[p].id !in Ids(Shed(q, input, throughput, high))
  {
    ReceiveAllOk(q, input.arrivals);
    ReceiveAllExtends(q, input.arrivals);
    var all := Filled(q, input).pending;
    assert all[p] == q.pending[p];
    var worked, shed := Worked(q, input, throughput), Shed(q, input, throughput, high);
    forall i | 0 <= i < |worked| ensures worked[i].id != all[p].id {
      assert worked[i] == all[i];
    }
    forall i | 0 <= i < |shed| ensures shed[i].id != all[p].id {
      assert shed[i] == all[|all| - |shed| + i];
    }
  }
}
