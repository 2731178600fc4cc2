/** The greedy bound over the whole of calculate_placement: a child gains load only from its own parent. */
module Spreads {
  import opened Topology
  import opened Irqs
  import opened Invariant
  import opened Placement
  import opened Balance

  /** Every interrupt that may still be placed is light: it waits, or has just been moved. */
  ghost predicate Light(s: State, m: nat) {
    forall i :: i in s.irq && s.irq[i].level != NoBalance && (s.irq[i].home.None? || s.irq[i].moved) ==> s.irq[i].load + 1 <= m
  }

  /** The children of d are open and differ by at most m. */
  ghost predicate Even(t: Topo, s: State, d: ObjId, m: nat) {
    d in t.at && AllOpen(t, s, t.at[d].children) && Spread(s, t.at[d].children, m)
  }

  /** A step that moves i at most, and only if i may still be placed, keeps the rest light. */
  lemma LightStep(s: State, r: State, i: IrqId, m: nat)
    requires Light(s, m) && OthersSame(s, r, i) && i in s.irq
    requires r.irq[i] == s.irq[i] || s.irq[i].home.None? || s.irq[i].moved
    ensures Light(r, m)
  {
  }

  /** A move to an object that is not a child of d leaves d's children even. */
  lemma MoveElsewhere(t: Topo, s: State, from: Option<ObjId>, b: ObjId, i: IrqId, d: ObjId, m: nat)
    requires HomeKnown(s, i) && i in ListAt(s, s.irq[i].home) && b in s.obj && (from.None? || from == s.irq[i].home)
    requires Even(t, s, d, m) && b !in t.at[d].children
    ensures Even(t, MigrateObj(s, from, Some(b), i), d, m)
  {
    hide MigrateObj, AllOpen;
    MigrateLoads(s, from, b, i);
    MigrateOpen(t, s, from, Some(b), i, t.at[d].children);
    SpreadAlike(s, MigrateObj(s, from, Some(b), i), t.at[d].children, m);
  }

  lemma SpreadAlike(s: State, r: State, cs: seq<ObjId>, m: nat)
    requires Spread(s, cs, m) && r.obj.Keys == s.obj.Keys && forall c :: c in cs && c in s.obj ==> r.obj[c].load == s.obj[c].load
    ensures Spread(r, cs, m)
  {
  }

  /** find_best_object_for_irq below any object. */
  lemma PlaceIrqEven(t: Topo, s: State, e: ObjId, i: IrqId, d: ObjId, m: nat)
    requires Basic(t, s) && Placed(t, s) && Linked(s) && e in t.at && i in s.irq && s.irq[i].home == Some(e)
    requires OwnKids(t, d) && Even(t, s, d, m) && Light(s, m)
    ensures Even(t, PlaceIrq(t, s, e, i), d, m) && Light(PlaceIrq(t, s, e, i), m)
  {
    hide MigrateObj, FindBest, Owned, Reach, Movable, Shaped, Even, Kept, SlotsOk, Unused;
    KidsKnown(t, e);
    PlaceIrqKept(t, s, e, i);
    LightStep(s, PlaceIrq(t, s, e, i), i, m);
    if s.irq[i].moved && !StaysAt(t.at[e].kind, s.irq[i].level) {
      MovedIsBalanced(s, i);
      if e == d {
        OwnPass(t, s, d, i, m);
      } else {
        var b := FindBest(t, s, t.at[e].children);
        if b.Some? {
          InDb(s, i);
          OwnedMovable(s, i);
          MovableMeans(s, i);
          OthersKids(t, d, e, b.value);
          MoveElsewhere(t, s, Some(e), b.value, i, d, m);
        }
      }
    }
  }

  lemma OwnPass(t: Topo, s: State, d: ObjId, i: IrqId, m: nat)
    requires Basic(t, s) && Linked(s) && i in s.irq && s.irq[i].home == Some(d) && Even(t, s, d, m)
    requires s.irq[i].load + 1 <= m
    ensures Even(t, PlaceIrq(t, s, d, i), d, m)
  {
    hide PlaceIrq, Owned, Shaped, AllOpen, Spread;
    PlaceIrqSpread(t, s, d, i, m);
  }

  lemma OthersKids(t: Topo, d: ObjId, e: ObjId, b: ObjId)
    requires OwnKids(t, d) && e in Reach(t) && e in t.at && e != d && b in t.at[e].children
    ensures b !in t.at[d].children
  {
    hide Reach, NoDup, Shaped;
  }

  lemma {:induction false} PlaceIrqsEven(t: Topo, s: State, e: ObjId, list: seq<IrqId>, d: ObjId, m: nat)
    requires Basic(t, s) && Placed(t, s) && Linked(s) && e in t.at && AllAt(s, list, e) && NoDup(list)
    requires OwnKids(t, d) && Even(t, s, d, m) && Light(s, m)
    ensures Even(t, PlaceIrqs(t, s, e, list), d, m) && Light(PlaceIrqs(t, s, e, list), m)
    decreases |list|
  {
    hide Kept, PlaceIrq, Owned, Shaped, OwnKids, Placed, Even, Light;
    if |list| > 0 {
      var init, i := list[..|list| - 1], list[|list| - 1];
      assert i !in init;
      PlaceIrqsEven(t, s, e, init, d, m);
      PlaceIrqsKept(t, s, e, init);
      var r := PlaceIrqs(t, s, e, init);
      KeptPlaced(t, s, r);
      PlaceIrqEven(t, r, e, i, d, m);
    }
  }

  lemma {:induction false} PlaceObjsEven(t: Topo, s: State, list: seq<ObjId>, d: ObjId, m: nat)
    requires Basic(t, s) && Placed(t, s) && forall e :: e in list ==> e in t.at
    requires OwnKids(t, d) && Even(t, s, d, m) && Light(s, m)
    ensures Even(t, PlaceObjs(t, s, list), d, m) && Light(PlaceObjs(t, s, list), m)
    decreases |list|
  {
    hide Kept, PlaceIrqs, Owned, Shaped, OwnKids, Placed, Even, Light;
    if |list| > 0 {
      var init, e := list[..|list| - 1], list[|list| - 1];
      PlaceObjsEven(t, s, init, d, m);
      var q := PlaceObjs(t, s, init);
      KeptPlaced(t, s, q);
      OwnedLists(q);
      PlaceIrqsEven(t, q, e, q.obj[e].irqs, d, m);
    }
  }

  /** place_irq_in_node moves to nodes, which are nobody's children. */
  lemma PlaceInNodeEven(t: Topo, s: State, i: IrqId, d: ObjId, m: nat)
    requires Basic(t, s) && Linked(s) && i in s.irq && s.irq[i].home == None && s.irq[i].level != NoBalance
    requires OwnKids(t, d) && Even(t, s, d, m) && Light(s, m)
    ensures Even(t, PlaceInNode(t, s, i), d, m) && Light(PlaceInNode(t, s, i), m)
  {
    hide MigrateObj, FindBest, Owned, Reach, Movable, Shaped, Even, OwnKids;
    NodesInTree(t);
    PlaceInNodeFits(t, s, i);
    LightStep(s, PlaceInNode(t, s, i), i, m);
    InDb(s, i);
    OwnedMovable(s, i);
    MovableMeans(s, i);
    var n := s.irq[i].node;
    var b := if (t.at[n].number != NUMA_NO_NODE || !t.numaAvail) && Usable(t, n) then Some(n) else FindBest(t, s, t.nodes);
    if b.Some? {
      NodeNoChild(t, d, b.value);
      MoveElsewhere(t, s, None, b.value, i, d, m);
    }
  }

  lemma NodeNoChild(t: Topo, d: ObjId, n: ObjId)
    requires OwnKids(t, d) && n in t.nodes
    ensures n !in t.at[d].children
  {
    hide Reach, NoDup;
  }

  lemma {:induction false} PlaceInNodesEven(t: Topo, s: State, list: seq<IrqId>, d: ObjId, m: nat)
    requires Basic(t, s) && Linked(s) && AllWaiting(s, list) && NoDup(list)
    requires OwnKids(t, d) && Even(t, s, d, m) && Light(s, m)
    ensures Even(t, PlaceInNodes(t, s, list), d, m) && Light(PlaceInNodes(t, s, list), m)
    decreases |list|
  {
    hide Kept, PlaceInNode, Owned, Shaped, OwnKids, Even, Light;
    if |list| > 0 {
      var init, i := list[..|list| - 1], list[|list| - 1];
      assert i !in init;
      PlaceInNodesEven(t, s, init, d, m);
      PlaceInNodesKept(t, s, init);
      var r := PlaceInNodes(t, s, init);
      KeptMeans(t, s, r);
      PlaceInNodeEven(t, r, i, d, m);
    }
  }

  lemma SortEven(t: Topo, s: State, l: seq<IrqId>, d: ObjId, m: nat)
    requires Even(t, s, d, m) && Light(s, m)
    ensures Even(t, s.(rebalance := l), d, m) && Light(s.(rebalance := l), m)
  {
    hide Usable;
  }

  /**
   The whole of calculate_placement, from any state of the invariant: at every object with open children of its
   own whose loads differ by at most m, if every interrupt that waits or has just been moved has load + 1 <= m,
   the children end open, differing by at most m, and none more than m above their average.
   */
  lemma PlacementKeepsSpread(t: Topo, s: State, d: ObjId, m: nat)
    requires Basic(t, s) && Placed(t, s) && OwnKids(t, d) && Even(t, s, d, m) && Light(s, m)
    ensures
      var r := CalculatePlacement(t, s);
      var cs := t.at[d].children;
      && Even(t, r, d, m) && (forall c :: c in cs ==> c in r.obj)
      && forall c :: c in cs ==> |cs| * r.obj[c].load <= SumLoads(r, cs) + |cs| * m
  {
    hide Kept, PlaceObjs, PlaceInNodes, Owned, Shaped, OwnKids, Placed, Sort, Light, AllOpen, SumLoads;
    OwnedLists(s);
    SortKept(t, s);
    var s0 := s.(rebalance := Sort(s, s.rebalance));
    KeptPlaced(t, s, s0);
    SortEven(t, s, Sort(s, s.rebalance), d, m);
    if |s0.rebalance| > 0 {
      OwnedLists(s0);
      PlaceInNodesKept(t, s0, s0.rebalance);
      PlaceInNodesEven(t, s0, s0.rebalance, d, m);
      var s1 := PlaceInNodes(t, s0, s0.rebalance);
      KeptPlaced(t, s0, s1);
      TreeLists(t);
      PlaceObjsEven(t, s1, t.nodes, d, m);
      var s2 := PlaceObjs(t, s1, t.nodes);
      KeptPlaced(t, s1, s2);
      PlaceObjsEven(t, s2, t.packages, d, m);
      var s3 := PlaceObjs(t, s2, t.packages);
      KeptPlaced(t, s2, s3);
      PlaceObjsEven(t, s3, t.caches, d, m);
    }
    EvenAverage(t, CalculatePlacement(t, s), d, m);
  }

  lemma EvenAverage(t: Topo, r: State, d: ObjId, m: nat)
    requires Even(t, r, d, m)
    ensures
      var cs := t.at[d].children;
      && (forall c :: c in cs ==> c in r.obj)
      && forall c :: c in cs ==> |cs| * r.obj[c].load <= SumLoads(r, cs) + |cs| * m
  {
    hide SumLoads, Eligible;
    var cs := t.at[d].children;
    forall c | c in cs
      ensures c in r.obj && |cs| * r.obj[c].load <= SumLoads(r, cs) + |cs| * m
    {
      AboveAverage(r, cs, c, m);
    }
  }
}
