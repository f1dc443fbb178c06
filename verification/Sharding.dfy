/** Geo sharding (sharding.py): rendezvous hashing of cells to nodes, shard maps,
    and the Gini coefficient of the load.  `w` is the hash weight of a cell and a
    node; ties are possible. */
module Sharding {
  import opened Models
  import opened Sorting

  type Weight = (Cell, Node) -> nat

  /** The order of names. */
  predicate NotAfter(a: Node, b: Node) {
    a <= b
  }

  // ---------------------------------------------------------------- ownership

  /** `owner_of_cell`: the first node of greatest weight; without nodes there is no owner. */
  function OwnerOfCell(w: Weight, cell: Cell, nodes: seq<Node>): Option<Node> {
    if nodes == [] then None
    else
      var last := nodes[|nodes| - 1];
      match OwnerOfCell(w, cell, nodes[..|nodes| - 1])
      case None => Some(last)
      case Some(best) => if w(cell, last) > w(cell, best) then Some(last) else Some(best)
  }

  /** `n` owns the cell among the nodes `a`: it has the greatest weight, and the first name of those. */
  ghost predicate Rendezvous(w: Weight, cell: Cell, a: set<Node>, n: Node) {
    n in a && forall m :: m in a ==> w(cell, m) < w(cell, n) || (w(cell, m) == w(cell, n) && n <= m)
  }

  function Members(nodes: seq<Node>): set<Node> {
    set n | n in nodes
  }

  /** A node with the last name joins: it takes the cells for which it has strictly more weight. */
  lemma RendezvousJoin(w: Weight, cell: Cell, a: set<Node>, n: Node, last: Node)
    requires Rendezvous(w, cell, a, n) && forall m :: m in a ==> m <= last
    ensures Rendezvous(w, cell, a + {last}, if w(cell, last) > w(cell, n) then last else n)
  {
  }

  /** All but the last of the nodes. */
  lemma SortedFront(nodes: seq<Node>, front: seq<Node>, last: Node)
    requires Sorted(nodes, NotAfter) && nodes == front + [last]
    ensures Sorted(front, NotAfter) && Members(nodes) == Members(front) + {last}
    ensures forall m :: m in Members(front) ==> m <= last
  {
    forall i, j | 0 <= i < j < |front| ensures front[i] <= front[j] {
      assert nodes[i] <= nodes[j];
    }
    forall i | 0 <= i < |front| ensures front[i] <= last {
      assert nodes[i] <= nodes[|front|];
    }
  }

  lemma OwnerOfOne(w: Weight, cell: Cell, n: Node)
    ensures OwnerOfCell(w, cell, [n]) == Some(n) && Members([n]) == {n}
  {
    assert [n][..0] == [];
  }

  lemma OwnerOfMore(w: Weight, cell: Cell, front: seq<Node>, last: Node, best: Node)
    requires OwnerOfCell(w, cell, front) == Some(best)
    ensures OwnerOfCell(w, cell, front + [last]) == Some(if w(cell, last) > w(cell, best) then last else best)
  {
    assert (front + [last])[..|front|] == front;
  }

  /** `owner_of_cell` on sorted nodes finds the rendezvous owner. */
  lemma {:induction false} OwnerOfSorted(w: Weight, cell: Cell, nodes: seq<Node>) returns (n: Node)
    requires Sorted(nodes, NotAfter) && nodes != []
    ensures OwnerOfCell(w, cell, nodes) == Some(n)
    ensures Rendezvous(w, cell, Members(nodes), n)
  {
    var front, last := nodes[..|nodes| - 1], nodes[|nodes| - 1];
    assert nodes == front + [last];
    SortedFront(nodes, front, last);
    if front == [] {
      assert nodes == [last];
      OwnerOfOne(w, cell, last);
      n := last;
    } else {
      var best := OwnerOfSorted(w, cell, front);
      OwnerOfMore(w, cell, front, last, best);
      RendezvousJoin(w, cell, Members(front), best, last);
      n := if w(cell, last) > w(cell, best) then last else best;
    }
  }

  lemma RendezvousIsUnique(w: Weight, cell: Cell, a: set<Node>, n: Node, m: Node)
    requires Rendezvous(w, cell, a, n) && Rendezvous(w, cell, a, m)
    ensures n == m
  {
  }

  lemma {:induction false} RendezvousExists(w: Weight, cell: Cell, a: set<Node>) returns (n: Node)
    requires a != {}
    ensures Rendezvous(w, cell, a, n)
  {
    var x :| x in a;
    if a == {x} {
      n := x;
    } else {
      var m := RendezvousExists(w, cell, a - {x});
      n := if w(cell, m) < w(cell, x) || (w(cell, m) == w(cell, x) && x < m) then x else m;
      assert a == (a - {x}) + {x};
    }
  }

  /** A cell changes owner only if its old owner left or its new owner joined, even with ties. */
  lemma MinimalDisruption(w: Weight, cell: Cell, a: set<Node>, b: set<Node>, n: Node, m: Node)
    requires Rendezvous(w, cell, a, n) && Rendezvous(w, cell, b, m) && n != m
    ensures n !in b || m !in a
  {
  }

  // ---------------------------------------------------------------- shard maps

  datatype ShardMap = ShardMap(version: nat, cellOwner: map<Cell, Node>, nodes: seq<Node>)
  {
    function Owner(cell: Cell): Option<Node> {
      if cell in cellOwner then Some(cellOwner[cell]) else None
    }

    /** The owner of a place whose cell may be unknown. */
    function OwnerAt(cell: Option<Cell>): Option<Node> {
      if cell.Some? then Owner(cell.value) else None
    }
  }

  /** The owner as far as an actor knows that may not have a map yet. */
  function KnownOwner(view: Option<ShardMap>, cell: Option<Cell>): Option<Node> {
    if view.Some? then view.value.OwnerAt(cell) else None
  }

  function BuildShardMap(w: Weight, cells: seq<Cell>, nodes: seq<Node>, version: nat): ShardMap {
    var alive := Sort(nodes, NotAfter);
    if alive == [] then ShardMap(version, map[], [])
    else ShardMap(version, map c | c in cells && OwnerOfCell(w, c, alive).Some? :: OwnerOfCell(w, c, alive).value, alive)
  }

  lemma SortMembers(nodes: seq<Node>)
    ensures Members(Sort(nodes, NotAfter)) == Members(nodes) && (Sort(nodes, NotAfter) == [] <==> nodes == [])
  {
    SortSorts(nodes, NotAfter);
    forall n ensures n in Sort(nodes, NotAfter) <==> n in nodes {
      assert n in Sort(nodes, NotAfter) <==> n in multiset(Sort(nodes, NotAfter));
      assert n in nodes <==> n in multiset(nodes);
    }
    assert |Sort(nodes, NotAfter)| == |multiset(Sort(nodes, NotAfter))|;
  }

  /** In a shard map every cell belongs to its rendezvous owner; the order of the nodes is irrelevant. */
  lemma ShardMapIsRendezvous(w: Weight, cells: seq<Cell>, nodes: seq<Node>, version: nat)
    ensures var m := BuildShardMap(w, cells, nodes, version);
            && m.version == version && Sorted(m.nodes, NotAfter) && Members(m.nodes) == Members(nodes)
            && (forall c :: c in m.cellOwner <==> c in cells && nodes != [])
            && (forall c :: c in m.cellOwner ==> Rendezvous(w, c, Members(nodes), m.cellOwner[c]))
  {
    SortMembers(nodes);
    SortSorts(nodes, NotAfter);
    if nodes != [] {
      forall c
        ensures var owner := OwnerOfCell(w, c, Sort(nodes, NotAfter));
                owner.Some? && Rendezvous(w, c, Members(nodes), owner.value)
      {
        var n := OwnerOfSorted(w, c, Sort(nodes, NotAfter));
      }
    }
  }

  lemma SomeOrNone(one: seq<Node>, two: seq<Node>)
    requires Members(one) == Members(two)
    ensures one == [] <==> two == []
  {
    assert one != [] ==> one[0] in Members(one);
    assert two != [] ==> two[0] in Members(two);
  }

  lemma OrderIsIrrelevant(w: Weight, cells: seq<Cell>, one: seq<Node>, two: seq<Node>, version: nat)
    requires Members(one) == Members(two)
    ensures BuildShardMap(w, cells, one, version).cellOwner == BuildShardMap(w, cells, two, version).cellOwner
  {
    ShardMapIsRendezvous(w, cells, one, version);
    ShardMapIsRendezvous(w, cells, two, version);
    SomeOrNone(one, two);
    var a, b := BuildShardMap(w, cells, one, version).cellOwner, BuildShardMap(w, cells, two, version).cellOwner;
    forall c | c in a ensures a[c] == b[c] {
      RendezvousIsUnique(w, c, Members(one), a[c], b[c]);
    }
  }

  /** `diff`: the cells whose owner differs, with the old and the new owner. */
  method Diff(mine: ShardMap, other: ShardMap) returns (changed: map<Cell, (Option<Node>, Option<Node>)>)
    ensures forall c :: c in changed <==> mine.Owner(c) != other.Owner(c)
    ensures forall c :: c in changed ==> changed[c] == (other.Owner(c), mine.Owner(c))
  {
    changed := map[];
    var rest := mine.cellOwner.Keys + other.cellOwner.Keys;
    while rest != {}
      invariant forall c :: c in changed <==> c !in rest && mine.Owner(c) != other.Owner(c)
      invariant forall c :: c in changed ==> changed[c] == (other.Owner(c), mine.Owner(c))
      decreases |rest|
    {
      var c :| c in rest;
      rest := rest - {c};
      if other.Owner(c) != mine.Owner(c) {
        changed := changed[c := (other.Owner(c), mine.Owner(c))];
      }
    }
  }

  /** The cells among `counted` that node `n` owns. */
  ghost function Counted(m: ShardMap, counted: set<Cell>, n: Node): set<Cell>
    requires counted <= m.cellOwner.Keys
  {
    set c | c in counted && m.cellOwner[c] == n
  }

  /** `load` counts the cells of `counted`, for the nodes of the map and the owners met so far. */
  ghost predicate Tally(m: ShardMap, counted: set<Cell>, load: map<Node, nat>)
    requires counted <= m.cellOwner.Keys
  {
    forall n :: TallyAt(m, counted, load, n)
  }

  ghost predicate TallyAt(m: ShardMap, counted: set<Cell>, load: map<Node, nat>, n: Node)
    requires counted <= m.cellOwner.Keys
  {
    && (n in load <==> n in m.nodes || Counted(m, counted, n) != {})
    && (n in load ==> load[n] == |Counted(m, counted, n)|)
  }

  lemma CountOne(m: ShardMap, counted: set<Cell>, c: Cell, n: Node)
    requires counted <= m.cellOwner.Keys && c in m.cellOwner && c !in counted
    ensures Counted(m, counted + {c}, n) ==
            if n == m.cellOwner[c] then Counted(m, counted, n) + {c} else Counted(m, counted, n)
  {
  }

  lemma TallyOne(m: ShardMap, counted: set<Cell>, load: map<Node, nat>, c: Cell)
    requires counted <= m.cellOwner.Keys && c in m.cellOwner && c !in counted && Tally(m, counted, load)
    ensures var n := m.cellOwner[c];
            Tally(m, counted + {c}, load[n := (if n in load then load[n] else 0) + 1])
  {
    var n := m.cellOwner[c];
    var after := load[n := (if n in load then load[n] else 0) + 1];
    forall k ensures TallyAt(m, counted + {c}, after, k) {
      assert TallyAt(m, counted, load, k);
      CountOne(m, counted, c, k);
    }
  }

  lemma TallyDone(m: ShardMap, counted: set<Cell>, load: map<Node, nat>)
    requires counted == m.cellOwner.Keys && Tally(m, counted, load)
    ensures forall n :: n in load <==> n in m.nodes || exists c :: c in m.cellOwner && m.cellOwner[c] == n
    ensures forall n :: n in load ==> load[n] == |set c | c in m.cellOwner && m.cellOwner[c] == n|
  {
    forall n
      ensures n in load <==> n in m.nodes || exists c :: c in m.cellOwner && m.cellOwner[c] == n
      ensures n in load ==> load[n] == |set c | c in m.cellOwner && m.cellOwner[c] == n|
    {
      assert TallyAt(m, counted, load, n);
      assert Counted(m, counted, n) == set c | c in m.cellOwner && m.cellOwner[c] == n;
      assert Counted(m, counted, n) != {} <==> exists c :: c in m.cellOwner && m.cellOwner[c] == n by {
        assert forall c :: c in m.cellOwner && m.cellOwner[c] == n ==> c in Counted(m, counted, n);
      }
    }
  }

  /** `load_per_node`: how many cells each node owns. */
  method LoadPerNode(m: ShardMap) returns (load: map<Node, nat>)
    ensures forall n :: n in load <==> n in m.nodes || exists c :: c in m.cellOwner && m.cellOwner[c] == n
    ensures forall n :: n in load ==> load[n] == |set c | c in m.cellOwner && m.cellOwner[c] == n|
  {
    load := map n | n in m.nodes :: 0;
    var rest := m.cellOwner.Keys;
    ghost var counted: set<Cell> := {};
    while rest != {}
      invariant rest + counted == m.cellOwner.Keys && rest !! counted && Tally(m, counted, load)
      decreases |rest|
    {
      var c :| c in rest;
      var n := m.cellOwner[c];
      TallyOne(m, counted, load, c);
      load := load[n := (if n in load then load[n] else 0) + 1];
      rest, counted := rest - {c}, counted + {c};
    }
    TallyDone(m, counted, load);
  }
}
