/** The spill buffer of a coordinator over its rounds (coordinator.py, `_ingest` and `_reinject_spill`): requests come in at
    the back, and a leader gives a few from the front to the owners of their cells in every round. */
module Spilling {
  import opened Models
  import opened Sharding
  import opened Protocol

  /** A round: the requests spilled before it, and whether the coordinator leads in it, with which map. */
  datatype Round = Round(spilled: seq<Request>, leads: bool, map_: ShardMap)

  /** A round takes up to `per` requests from the front of the buffer, if the coordinator leads, and gives them to the
      owners of their cells, in order. */
  predicate Metered(per: nat, held: seq<Request>, round: Round, left: seq<Request>, sent: seq<Message>) {
    var all := held + round.spilled;
    if !round.leads then left == all && sent == []
    else if |all| <= per then left == [] && sent == ToOwners(all, round.map_)
    else left == all[per..] && sent == ToOwners(all[..per], round.map_)
  }

  /** Taking `n` requests from the front, as many as there are or as may be taken. */
  lemma TakenFromFront(per: nat, held: seq<Request>, n: nat, m: ShardMap, left: seq<Request>, sent: seq<Message>)
    requires n <= |held| && n <= per && (n == |held| || n == per)
    requires left == held[n..] && sent == ToOwners(held[..n], m)
    ensures Metered(per, held, Round([], true, m), left, sent)
  {
    assert held + [] == held && held[..|held|] == held;
  }

  /** Rounds one after another. */
  ghost predicate Rounds(per: nat, rounds: seq<Round>, held: seq<seq<Request>>, sent: seq<seq<Message>>) {
    && |held| == |rounds| + 1 && |sent| == |rounds|
    && forall i, n :: 0 <= i < n == i + 1 <= |rounds| ==> Metered(per, held[i], rounds[i], held[n], sent[i])
  }

  /** In how many of the first `k` rounds the coordinator leads. */
  function Led(rounds: seq<Round>, k: nat): nat
    requires k <= |rounds|
  {
    if k == 0 then 0 else Led(rounds, k - 1) + if rounds[k - 1].leads then 1 else 0
  }

  lemma Onward(n: nat, per: nat)
    ensures (n + 1) * per == n * per + per
  {
  }

  /** Every round that is led moves a request forward by `per` places. */
  lemma {:induction false} MovesUp(per: nat, rounds: seq<Round>, held: seq<seq<Request>>, sent: seq<seq<Message>>, p: nat,
                                   k: nat)
    requires Rounds(per, rounds, held, sent) && k <= |rounds| && p < |held[0]| && Led(rounds, k) * per <= p
    ensures p - Led(rounds, k) * per < |held[k]| && held[k][p - Led(rounds, k) * per] == held[0][p]
  {
    if k > 0 {
      Onward(Led(rounds, k - 1), per);
      MovesUp(per, rounds, held, sent, p, k - 1);
      assert Metered(per, held[k - 1], rounds[k - 1], held[k], sent[k - 1]);
    }
  }

  /** The round in which place `p` comes up. */
  lemma {:induction false} TurnOf(per: nat, rounds: seq<Round>, p: nat, n: nat) returns (k: nat)
    requires n <= |rounds| && p < Led(rounds, n) * per
    ensures k < n && rounds[k].leads && Led(rounds, k) * per <= p < Led(rounds, k) * per + per
  {
    Onward(Led(rounds, n - 1), per);
    if p < Led(rounds, n - 1) * per {
      k := TurnOf(per, rounds, p, n - 1);
    } else {
      k := n - 1;
    }
  }

  /** A spilled request at place `p` goes to the owner of its cell, if there is one, in the round before which
      `p / per` others have been led: it is never left lying, however many are spilled after it. */
  lemma SpilledGoesOut(per: nat, rounds: seq<Round>, held: seq<seq<Request>>, sent: seq<seq<Message>>, p: nat)
    returns (k: nat)
    requires Rounds(per, rounds, held, sent) && p < |held[0]| && p < Led(rounds, |rounds|) * per
    ensures k < |rounds| && rounds[k].leads && Led(rounds, k) * per <= p < Led(rounds, k) * per + per
    ensures var owner := rounds[k].map_.OwnerAt(held[0][p].pickupCell);
            owner.Some? ==> ToWorker(owner.value, held[0][p]) in sent[k]
  {
    k := TurnOf(per, rounds, p, |rounds|);
    MovesUp(per, rounds, held, sent, p, k);
    var all, at := held[k] + rounds[k].spilled, p - Led(rounds, k) * per;
    assert Metered(per, held[k], rounds[k], held[k + 1], sent[k]);
    var taken := if |all| <= per then all else all[..per];
    assert taken[at] == held[0][p];
    NothingForgotten(taken, rounds[k].map_, held[0][p]);
  }

  /** What arrives before a round is in the buffer when it begins. */
  lemma ArrivedBefore(per: nat, held: seq<Request>, spilled: seq<Request>, leads: bool, m: ShardMap, left: seq<Request>,
                      sent: seq<Message>)
    requires Metered(per, held + spilled, Round([], leads, m), left, sent)
    ensures Metered(per, held, Round(spilled, leads, m), left, sent)
  {
    assert held + spilled + [] == held + spilled;
  }
}
