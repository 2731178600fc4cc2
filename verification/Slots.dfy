/** Slot accounting by numbers: every move, the whole of placement, and removal. */
module Slots {
  import opened Topology
  import opened Irqs
  import opened Invariant
  import opened Placement
  import opened Balance

  /** A limited object trades slots for interrupts one by one; an unlimited one stays unlimited. */
  ghost predicate Accounted(s: State, r: State, o: ObjId) {
    && o in s.obj && o in r.obj
    && (s.obj[o].slots == INT_MAX ==> r.obj[o].slots == INT_MAX)
    && (s.obj[o].slots != INT_MAX ==> r.obj[o].slots + |r.obj[o].irqs| == s.obj[o].slots + |s.obj[o].irqs|)
  }

  lemma MoveSlots(s: State, from: Option<ObjId>, to: Option<ObjId>, i: IrqId, o: ObjId)
    requires HomeKnown(s, i) && i in ListAt(s, s.irq[i].home) && (from.None? || from == s.irq[i].home)
    requires (to.Some? ==> to.value in s.obj) && to != s.irq[i].home && o in s.obj
    ensures
      var r := MigrateObj(s, from, to, i);
      && o in r.obj
      && r.obj[o].slots == if s.obj[o].slots == INT_MAX then INT_MAX
                           else s.obj[o].slots + (if s.irq[i].home == Some(o) then 1 else 0) - (if to == Some(o) then 1 else 0)
  {
    hide Drop;
  }

  /** migrate_irq_obj of an interrupt found at its home to another place: slots plus interrupts stay the same at every limited object. */
  lemma MoveAccounts(s: State, from: Option<ObjId>, to: Option<ObjId>, i: IrqId, o: ObjId)
    requires Owned(s) && Movable(s, i) && HomeKnown(s, i) && (from.None? || from == s.irq[i].home)
    requires (to.Some? ==> to.value in s.obj) && to != s.irq[i].home && o in s.obj
    ensures Accounted(s, MigrateObj(s, from, to, i), o)
  {
    hide MigrateObj, Drop, NoDup, FoundAt, Owned, Movable;
    MovableMeans(s, i);
    MoveSlots(s, from, to, i, o);
    MigrateListAt(s, from, to, i, Some(o));
    OwnedLists(s);
    DropElems(s.obj[o].irqs, i);
    if s.irq[i].home == Some(o) { assert i in s.obj[o].irqs; }
  }

  // ---- the whole of placement

  /** Accounted, and a limited object stays limited. */
  ghost predicate Traded(s: State, r: State, o: ObjId) {
    Accounted(s, r, o) && (s.obj[o].slots != INT_MAX ==> r.obj[o].slots != INT_MAX)
  }

  lemma TradedTrans(s: State, r: State, q: State, o: ObjId)
    requires Traded(s, r, o) && Traded(r, q, o)
    ensures Traded(s, q, o)
  {
  }

  /** Placement takes nothing off a CPU: one step. */
  lemma PlaceIrqTrades(t: Topo, s: State, d: ObjId, i: IrqId, o: ObjId)
    requires Basic(t, s) && Linked(s) && d in t.at && i in s.irq && s.irq[i].home == Some(d) && o in s.obj && o != d
    requires s.obj[o].slots <= INT_MAX
    ensures Traded(s, PlaceIrq(t, s, d, i), o) && PlaceIrq(t, s, d, i).obj[o].slots <= s.obj[o].slots
  {
    hide MigrateObj, FindBest, Owned, Shaped, Movable, Kept, Drop, Accounted;
    KidsKnown(t, d);
    SameTraded(s, o);
    if s.irq[i].moved && !StaysAt(t.at[d].kind, s.irq[i].level) {
      var b := FindBest(t, s, t.at[d].children);
      if b.Some? {
        MovedIsBalanced(s, i);
        InDb(s, i);
        OwnedMovable(s, i);
        MovableMeans(s, i);
        NotItself(t, d, b.value);
        MoveAccounts(s, Some(d), b, i, o);
        MoveSlots(s, Some(d), b, i, o);
      }
    }
  }

  lemma SameTraded(s: State, o: ObjId)
    requires o in s.obj
    ensures Traded(s, s, o)
  {
  }

  lemma NotItself(t: Topo, d: ObjId, c: ObjId)
    requires Shaped(t) && d in t.at && c in t.at[d].children
    ensures c != d
  {
    hide NoDup;
  }

  lemma {:induction false} PlaceIrqsTrade(t: Topo, s: State, d: ObjId, list: seq<IrqId>, o: ObjId)
    requires Basic(t, s) && Linked(s) && d in t.at && AllAt(s, list, d) && NoDup(list) && o in s.obj && o != d
    requires s.obj[o].slots <= INT_MAX
    ensures Traded(s, PlaceIrqs(t, s, d, list), o) && PlaceIrqs(t, s, d, list).obj[o].slots <= s.obj[o].slots
    decreases |list|
  {
    hide Kept, PlaceIrq, Owned, Shaped, Traded;
    if |list| == 0 {
      SameTraded(s, o);
    } else {
      var init, i := list[..|list| - 1], list[|list| - 1];
      assert i !in init;
      PlaceIrqsTrade(t, s, d, init, o);
      PlaceIrqsKept(t, s, d, init);
      var r := PlaceIrqs(t, s, d, init);
      KeptMeans(t, s, r);
      PlaceIrqTrades(t, r, d, i, o);
      TradedTrans(s, r, PlaceIrq(t, r, d, i), o);
    }
  }

  lemma {:induction false} PlaceObjsTrade(t: Topo, s: State, list: seq<ObjId>, o: ObjId)
    requires Basic(t, s) && (forall d :: d in list ==> d in t.at && d != o) && o in s.obj && s.obj[o].slots <= INT_MAX
    ensures o in PlaceObjs(t, s, list).obj
    ensures Traded(s, PlaceObjs(t, s, list), o) && PlaceObjs(t, s, list).obj[o].slots <= s.obj[o].slots
    decreases |list|
  {
    hide Kept, PlaceIrqs, Owned, Shaped, Traded;
    if |list| == 0 {
      SameTraded(s, o);
    } else {
      var init, d := list[..|list| - 1], list[|list| - 1];
      PlaceObjsTrade(t, s, init, o);
      var q := PlaceObjs(t, s, init);
      KeptMeans(t, s, q);
      OwnedLists(q);
      PlaceIrqsTrade(t, q, d, q.obj[d].irqs, o);
      TradedTrans(s, q, PlaceObj(t, q, d), o);
    }
  }

  /** place_irq_in_node does not touch a CPU. */
  lemma PlaceInNodeTrades(t: Topo, s: State, i: IrqId, o: ObjId)
    requires Basic(t, s) && Linked(s) && i in s.irq && s.irq[i].home == None && s.irq[i].level != NoBalance
    requires o in t.at && t.at[o].kind == Cpu
    ensures o in s.obj && o in PlaceInNode(t, s, i).obj && PlaceInNode(t, s, i).obj[o] == s.obj[o]
  {
    hide MigrateObj, FindBest, Owned, Shaped, Movable;
    NodesInTree(t);
    InDb(s, i);
    OwnedMovable(s, i);
    MovableMeans(s, i);
    var n := s.irq[i].node;
    var b := if (t.at[n].number != NUMA_NO_NODE || !t.numaAvail) && Usable(t, n) then Some(n) else FindBest(t, s, t.nodes);
    if b.Some? { MigrateElsewhere(s, None, b, i, o); }
  }

  lemma {:induction false} PlaceInNodesTrade(t: Topo, s: State, list: seq<IrqId>, o: ObjId)
    requires Basic(t, s) && Linked(s) && AllWaiting(s, list) && NoDup(list) && o in t.at && t.at[o].kind == Cpu
    ensures o in s.obj && o in PlaceInNodes(t, s, list).obj && PlaceInNodes(t, s, list).obj[o] == s.obj[o]
    decreases |list|
  {
    hide Kept, PlaceInNode, Owned, Shaped;
    if |list| > 0 {
      var init, i := list[..|list| - 1], list[|list| - 1];
      assert i !in init;
      PlaceInNodesTrade(t, s, init, o);
      PlaceInNodesKept(t, s, init);
      var r := PlaceInNodes(t, s, init);
      KeptMeans(t, s, r);
      PlaceInNodeTrades(t, r, i, o);
    }
  }

  /**
   Over the whole of calculate_placement every reachable CPU trades one slot for each interrupt it gets: a CPU with
   n slots left takes at most n more.
   */
  lemma PlacementAccounts(t: Topo, s: State, o: ObjId)
    requires Basic(t, s) && Placed(t, s) && o in Reach(t) && o in t.at && t.at[o].kind == Cpu
    ensures
      var r := CalculatePlacement(t, s);
      && Traded(s, r, o) && 0 <= r.obj[o].slots <= s.obj[o].slots
      && (s.obj[o].slots != INT_MAX ==> |r.obj[o].irqs| <= |s.obj[o].irqs| + s.obj[o].slots)
  {
    hide Kept, PlaceObjs, PlaceInNodes, Owned, Shaped, Placed, Sort, Traded, Reach;
    CpuSlots(t, s, o);
    OwnedLists(s);
    SortKept(t, s);
    var s0 := s.(rebalance := Sort(s, s.rebalance));
    KeptPlaced(t, s, s0);
    SameTraded(s, o);
    SortTrades(s, Sort(s, s.rebalance), o);
    if |s0.rebalance| > 0 {
      OwnedLists(s0);
      PlaceInNodesKept(t, s0, s0.rebalance);
      PlaceInNodesTrade(t, s0, s0.rebalance, o);
      var s1 := PlaceInNodes(t, s0, s0.rebalance);
      KeptPlaced(t, s0, s1);
      NotCpus(t, o);
      CpuSlots(t, s1, o);
      PlaceObjsTrade(t, s1, t.nodes, o);
      var s2 := PlaceObjs(t, s1, t.nodes);
      KeptPlaced(t, s1, s2);
      PlaceObjsTrade(t, s2, t.packages, o);
      var s3 := PlaceObjs(t, s2, t.packages);
      KeptPlaced(t, s2, s3);
      PlaceObjsTrade(t, s3, t.caches, o);
      var s4 := PlaceObjs(t, s3, t.caches);
      KeptPlaced(t, s3, s4);
      SameCpu(s, s1, o);
      TradedTrans(s, s1, s2, o);
      TradedTrans(s, s2, s3, o);
      TradedTrans(s, s3, s4, o);
      CpuSlots(t, s4, o);
    }
    TradedMeans(s, CalculatePlacement(t, s), o);
  }

  lemma TradedMeans(s: State, r: State, o: ObjId)
    requires Traded(s, r, o) && r.obj[o].slots >= 0
    ensures s.obj[o].slots != INT_MAX ==> |r.obj[o].irqs| <= |s.obj[o].irqs| + s.obj[o].slots
  {
  }

  lemma SameCpu(s: State, r: State, o: ObjId)
    requires o in s.obj && o in r.obj && r.obj[o] == s.obj[o]
    ensures Traded(s, r, o)
  {
  }

  lemma SortTrades(s: State, l: seq<IrqId>, o: ObjId)
    requires o in s.obj
    ensures Traded(s, s.(rebalance := l), o)
  {
  }

  lemma CpuSlots(t: Topo, s: State, o: ObjId)
    requires Basic(t, s) && Placed(t, s) && o in Reach(t) && o in t.at && t.at[o].kind == Cpu
    ensures o in s.obj && 0 <= s.obj[o].slots <= INT_MAX
  {
    hide Owned, Shaped, Reach;
  }

  lemma NotCpus(t: Topo, o: ObjId)
    requires Shaped(t) && o in t.at && t.at[o].kind == Cpu
    ensures forall d :: d in t.nodes || d in t.packages || d in t.caches ==> d in t.at && d != o
  {
  }

  // ---- removal

  /**
   remove_no_existing_irq by fields: a marked interrupt only loses its mark; any other is forgotten, the object it
   was on gets its slots probed afresh, and no other object changes.
   */
  lemma RemoveEffect(s: State, i: IrqId)
    requires Owned(s) && i in s.irq
    ensures HomeKnown(s, i)
    ensures
      var r := RemoveIrq(s, i);
      && r.writes == s.writes && (forall x :: x in r.irq && x != i ==> x in s.irq && r.irq[x] == s.irq[x])
      && (s.irq[i].existing ==> r == s.(irq := s.irq[i := s.irq[i].(existing := false)]))
      && (!s.irq[i].existing ==>
            && i !in r.irq && i !in r.db && i !in r.banned && i !in r.rebalance && r.obj.Keys == s.obj.Keys
            && (forall o :: o in s.obj && s.irq[i].home != Some(o) ==> r.obj[o] == s.obj[o])
            && (forall o :: o in s.obj && s.irq[i].home == Some(o) ==>
                  i !in r.obj[o].irqs && r.obj[o] == s.obj[o].(irqs := r.obj[o].irqs, slots := INT_MAX)))
  {
    hide Drop, NoDup, FoundAt, NoRepeat;
    if s.irq[i].home.Some? { OwnedMovable(s, i); MovableMeans(s, i); }
    OwnedLists(s);
    DropElems(s.db, i);
    DropElems(s.banned, i);
    DropElems(s.rebalance, i);
    if s.irq[i].home.Some? { DropElems(s.obj[s.irq[i].home.value].irqs, i); }
  }
}
