/**
 The object tree: NUMA nodes, packages, caches and CPUs. Objects are named by ids, so a
 pointer is an id and the children and parent links of struct topo_obj are kept as they are.
 The tree does not change between two rebuilds.
 */
module Topology {
  type ObjId = nat

  datatype Option<T> = None | Some(value: T)

  datatype Kind = Cpu | Cache | Package | Node

  function Rank(k: Kind): nat {
    match k
    case Cpu => 0
    case Cache => 1
    case Package => 2
    case Node => 3
  }

  datatype Place = Place(kind: Kind, number: int, mask: set<nat>, parent: Option<ObjId>, children: seq<ObjId>)

  const NUMA_NO_NODE := -1

  /** The tree, the four object lists and the CPUs kept free of interrupts. */
  datatype Topo = Topo(
    at: map<ObjId, Place>,
    nodes: seq<ObjId>, packages: seq<ObjId>, caches: seq<ObjId>, cpus: seq<ObjId>,
    banned: set<nat>, numaAvail: bool)

  predicate NoDup<T(==)>(s: seq<T>) {
    forall i, j :: 0 <= i < j < |s| ==> s[i] != s[j]
  }

  lemma NoDupNil()
    ensures NoDup<nat>([])
  {
  }

  lemma LastApart(list: seq<nat>)
    requires NoDup(list) && |list| > 0
    ensures NoDup(list[..|list| - 1]) && list[|list| - 1] !in list[..|list| - 1]
    ensures forall x :: x in list <==> x in list[..|list| - 1] || x == list[|list| - 1]
  {
    assert list == list[..|list| - 1] + [list[|list| - 1]];
  }

  ghost predicate OnList(t: Topo, list: seq<ObjId>, k: Kind) {
    && NoDup(list)
    && (forall o :: o in list <==> o in t.at && t.at[o].kind == k)
  }

  /** What the tree builder always guarantees: links lead to objects and strictly down or up. */
  ghost predicate Shaped(t: Topo) {
    && OnList(t, t.nodes, Node) && OnList(t, t.packages, Package)
    && OnList(t, t.caches, Cache) && OnList(t, t.cpus, Cpu)
    && (forall o, c :: o in t.at && c in t.at[o].children ==>
          c in t.at && Rank(t.at[c].kind) < Rank(t.at[o].kind))
    && (forall o :: o in t.at && t.at[o].parent.Some? ==>
          t.at[o].parent.value in t.at && o in t.at[t.at[o].parent.value].children)
    && (forall o :: o in t.at && t.at[o].kind == Cpu ==> t.at[o].mask != {})
    && (exists n :: n in t.nodes)
  }

  /** cpus_intersects(mask, unbanned_cpus) */
  predicate Usable(t: Topo, o: ObjId)
    requires o in t.at
  {
    t.at[o].mask - t.banned != {}
  }

  /** Everything at or below o along children links. */
  ghost function Desc(t: Topo, o: ObjId): set<ObjId>
    requires Shaped(t) && o in t.at
    decreases Rank(t.at[o].kind)
  {
    {o} + set c, x | c in t.at[o].children && x in Desc(t, c) :: x
  }

  /** Everything reachable from the NUMA nodes. */
  ghost function Reach(t: Topo): set<ObjId>
    requires Shaped(t)
  {
    set n, x | n in t.nodes && x in Desc(t, n) :: x
  }

  /** A child is an object of a lower kind, so a CPU has none. */
  lemma ChildOf(t: Topo, o: ObjId, k: nat)
    requires Shaped(t) && o in t.at && k < |t.at[o].children|
    ensures t.at[o].children[k] in t.at
    ensures Rank(t.at[t.at[o].children[k]].kind) < Rank(t.at[o].kind)
  {
    assert t.at[o].children[k] in t.at[o].children;
  }

  lemma {:induction false} DescInTree(t: Topo, o: ObjId)
    requires Shaped(t) && o in t.at
    ensures forall x :: x in Desc(t, o) ==> x in t.at && Rank(t.at[x].kind) <= Rank(t.at[o].kind)
    decreases Rank(t.at[o].kind)
  {
    hide OnList;
    forall c | c in t.at[o].children
      ensures forall x :: x in Desc(t, c) ==> x in t.at && Rank(t.at[x].kind) <= Rank(t.at[o].kind)
    {
      DescInTree(t, c);
    }
  }

  lemma {:induction false} DescClosed(t: Topo, o: ObjId, x: ObjId, c: ObjId)
    requires Shaped(t) && o in t.at && x in Desc(t, o) && x in t.at && c in t.at[x].children
    ensures c in Desc(t, o)
    decreases Rank(t.at[o].kind)
  {
    hide NoDup;
    if x == o {
      assert c in Desc(t, c);
    } else {
      var k :| k in t.at[o].children && x in Desc(t, k);
      DescClosed(t, k, x, c);
    }
  }

  lemma ReachNode(t: Topo, n: ObjId)
    requires Shaped(t) && n in t.nodes
    ensures n in Reach(t)
  {
    assert n in Desc(t, n);
  }

  lemma ReachInTree(t: Topo, x: ObjId)
    requires Shaped(t) && x in Reach(t)
    ensures x in t.at
  {
    hide Desc;
    var n :| n in t.nodes && x in Desc(t, n);
    DescInTree(t, n);
  }

  lemma ReachChild(t: Topo, x: ObjId, c: ObjId)
    requires Shaped(t) && x in Reach(t) && x in t.at && c in t.at[x].children
    ensures c in Reach(t)
  {
    hide Desc;
    var n :| n in t.nodes && x in Desc(t, n);
    DescClosed(t, n, x, c);
  }

  /** An object below o other than o itself is a child of something at or below o. */
  lemma {:induction false} DescParent(t: Topo, o: ObjId, x: ObjId) returns (y: ObjId)
    requires Shaped(t) && o in t.at && x in Desc(t, o) && x != o
    ensures y in Desc(t, o) && y in t.at && x in t.at[y].children
    decreases Rank(t.at[o].kind)
  {
    hide NoDup;
    var c :| c in t.at[o].children && x in Desc(t, c);
    if x == c { y := o; } else { y := DescParent(t, c, x); }
  }

  /** A reachable object other than a node is a child of a reachable object. */
  lemma ReachedFrom(t: Topo, x: ObjId) returns (y: ObjId)
    requires Shaped(t) && x in Reach(t) && x !in t.nodes
    ensures y in Reach(t) && y in t.at && x in t.at[y].children
  {
    hide Desc;
    var n :| n in t.nodes && x in Desc(t, n);
    y := DescParent(t, n, x);
  }

  lemma ParentKnown(t: Topo, o: ObjId)
    requires Shaped(t) && o in t.at
    ensures t.at[o].parent.Some? ==> t.at[o].parent.value in t.at
  {
  }
}
