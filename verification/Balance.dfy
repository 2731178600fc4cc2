/** What placement does to loads: conservation along the tree and the greedy balance bound. */
module Balance {
  import opened Topology
  import opened Irqs
  import opened Invariant
  import opened Placement

  // ---- sums

  ghost function SumLoads(s: State, cs: seq<ObjId>): nat
    requires forall c :: c in cs ==> c in s.obj
  {
    if |cs| == 0 then 0 else s.obj[cs[0]].load + SumLoads(s, cs[1..])
  }

  lemma {:induction false} SameSums(s: State, r: State, cs: seq<ObjId>)
    requires forall c :: c in cs ==> c in s.obj && c in r.obj && r.obj[c].load == s.obj[c].load
    ensures SumLoads(r, cs) == SumLoads(s, cs)
  {
    if |cs| > 0 { SameSums(s, r, cs[1..]); }
  }

  /** The load that moved interrupts on this list brought: load + 1 each. */
  ghost function Brought(s: State, l: seq<IrqId>): nat
    requires forall i :: i in l ==> i in s.irq
  {
    if |l| == 0 then 0 else (if s.irq[l[0]].moved then s.irq[l[0]].load + 1 else 0) + Brought(s, l[1..])
  }

  /** Only b's load changes, by w. */
  ghost predicate LoadMoved(s: State, r: State, b: ObjId, w: nat) {
    r.obj.Keys == s.obj.Keys && forall o :: o in s.obj ==> r.obj[o].load == s.obj[o].load + if o == b then w else 0
  }

  lemma {:induction false} SumLoadsMoved(s: State, r: State, cs: seq<ObjId>, b: ObjId, w: nat)
    requires LoadMoved(s, r, b, w) && NoDup(cs) && forall c :: c in cs ==> c in s.obj
    ensures SumLoads(r, cs) == SumLoads(s, cs) + if b in cs then w else 0
  {
    if |cs| > 0 {
      assert cs == [cs[0]] + cs[1..];
      assert cs[0] !in cs[1..];
      SumLoadsMoved(s, r, cs[1..], b, w);
    }
  }

  lemma {:induction false} BroughtSame(s: State, r: State, l: seq<IrqId>)
    requires forall i :: i in l ==> i in s.irq && i in r.irq && r.irq[i].load == s.irq[i].load && r.irq[i].moved == s.irq[i].moved
    ensures Brought(r, l) == Brought(s, l)
  {
    if |l| > 0 { BroughtSame(s, r, l[1..]); }
  }

  lemma {:induction false} BroughtDrop(s: State, l: seq<IrqId>, i: IrqId)
    requires (forall x :: x in l ==> x in s.irq) && i in l && s.irq[i].moved
    ensures forall x :: x in Drop(l, i) ==> x in s.irq
    ensures Brought(s, Drop(l, i)) + (s.irq[i].load + 1) == Brought(s, l)
  {
    if l[0] != i {
      assert i in l[1..];
      BroughtDrop(s, l[1..], i);
      assert ([l[0]] + Drop(l[1..], i))[1..] == Drop(l[1..], i);
    }
  }

  lemma {:induction false} BroughtSnoc(s: State, l: seq<IrqId>, i: IrqId)
    requires (forall x :: x in l ==> x in s.irq) && i in s.irq
    ensures Brought(s, l + [i]) == Brought(s, l) + if s.irq[i].moved then s.irq[i].load + 1 else 0
  {
    if |l| == 0 {
      assert l + [i] == [i];
      assert Brought(s, [i][1..]) == 0;
    } else {
      assert (l + [i])[1..] == l[1..] + [i];
      BroughtSnoc(s, l[1..], i);
    }
  }

  // ---- conservation

  /** No object is a child of two reachable objects, or twice of one. */
  ghost predicate TreeBelow(t: Topo) {
    && Shaped(t)
    && (forall o :: o in Reach(t) && o in t.at ==> NoDup(t.at[o].children))
    && (forall a, b, c ::
          (a in Reach(t) && b in Reach(t) && a in t.at && b in t.at && c in t.at[a].children && c in t.at[b].children)
          ==> a == b)
  }

  /** A reachable object whose children are its own: no other reachable object lists them, and none is listed twice. */
  ghost predicate OwnKids(t: Topo, o: ObjId) {
    && Shaped(t) && o in Reach(t) && o in t.at && NoDup(t.at[o].children)
    && (forall a, c :: a in Reach(t) && a in t.at && c in t.at[a].children && c in t.at[o].children ==> a == o)
  }

  /** In a tree that is every reachable object. */
  lemma TreeOwns(t: Topo)
    requires Shaped(t)
    ensures TreeBelow(t) <==> forall o :: o in Reach(t) && o in t.at ==> OwnKids(t, o)
  {
    hide Reach, NoDup, Shaped;
  }

  ghost predicate Known(t: Topo, s: State, d: ObjId) {
    && d in t.at && d in s.obj && s.obj.Keys == t.at.Keys
    && (forall c :: c in t.at[d].children ==> c in s.obj)
    && (forall i :: i in s.obj[d].irqs ==> i in s.irq)
  }

  lemma BasicKnown(t: Topo, s: State, d: ObjId)
    requires Basic(t, s) && d in t.at
    ensures Known(t, s, d)
  {
    hide NoDup, Shaped, Owned;
    KidsKnown(t, d);
    OwnedLists(s);
  }

  /** An object's load beyond its children's loads and what moved interrupts brought to it. */
  ghost function Surplus(t: Topo, s: State, d: ObjId): int
    requires Known(t, s, d)
  {
    s.obj[d].load - SumLoads(s, t.at[d].children) - Brought(s, s.obj[d].irqs)
  }

  /** migrate_irq_obj adds the interrupt's load + 1 to the target and changes no other load. */
  lemma MigrateLoads(s: State, from: Option<ObjId>, b: ObjId, i: IrqId)
    requires HomeKnown(s, i) && i in ListAt(s, s.irq[i].home) && b in s.obj
    requires from.None? || from == s.irq[i].home
    ensures LoadMoved(s, MigrateObj(s, from, Some(b), i), b, s.irq[i].load + 1)
  {
    hide Drop;
  }

  /** A move placement makes: a moved interrupt to a child of its home, or a waiting one to a node. */
  ghost predicate PlacingMove(t: Topo, s: State, b: ObjId, i: IrqId)
    requires Shaped(t)
  {
    && i in s.irq && s.irq[i].level != NoBalance && b in t.at
    && match s.irq[i].home
       case None => t.at[b].kind == Node
       case Some(d) => d in Reach(t) && d in t.at && b in t.at[d].children && s.irq[i].moved
  }

  /** The target is a child of the old home only. */
  lemma TargetParent(t: Topo, s: State, b: ObjId, i: IrqId, o: ObjId)
    requires OwnKids(t, o) && PlacingMove(t, s, b, i)
    ensures b in t.at[o].children <==> s.irq[i].home == Some(o)
    ensures s.irq[i].home != Some(b)
    ensures NoDup(t.at[o].children)
  {
    hide Reach, NoDup;
  }

  /** What a move brings to o: nothing, w, or minus w. */
  lemma MoveBrought(t: Topo, s: State, from: Option<ObjId>, b: ObjId, i: IrqId, o: ObjId)
    requires Basic(t, s) && Movable(s, i) && HomeKnown(s, i) && s.irq[i].home != Some(b)
    requires from.None? || from == s.irq[i].home
    requires b in s.obj && o in s.obj && (s.irq[i].home == Some(o) ==> s.irq[i].moved)
    requires s.irq[i].level != NoBalance
    ensures
      var r := MigrateObj(s, from, Some(b), i);
      var w := s.irq[i].load + 1;
      && o in r.obj
      && (forall x :: x in s.obj[o].irqs ==> x in s.irq) && (forall x :: x in r.obj[o].irqs ==> x in r.irq)
      && Brought(r, r.obj[o].irqs) + (if s.irq[i].home == Some(o) then w else 0)
         == Brought(s, s.obj[o].irqs) + (if o == b then w else 0)
  {
    hide MigrateObj, Movable, NoDup, Drop, Brought, Shaped, Reach, FoundAt, NoRepeat;
    MovableMeans(s, i);
    var home := s.irq[i].home;
    var r := MigrateObj(s, from, Some(b), i);
    MigrateFound(s, from, Some(b), i);
    MigrateListAt(s, from, Some(b), i, Some(o));
    OwnedLists(s);
    var l := s.obj[o].irqs;
    if home == Some(o) {
      BroughtDrop(s, l, i);
      NotInDrop(s, o, i);
      BroughtSame(s, r, Drop(l, i));
    } else {
      NotListed(s, o, i);
      BroughtSame(s, r, l);
      if o == b { BroughtSnoc(r, l, i); }
    }
  }

  /** A placing move keeps every surplus. */
  lemma MoveSurplus(t: Topo, s: State, from: Option<ObjId>, b: ObjId, i: IrqId, o: ObjId)
    requires Basic(t, s) && OwnKids(t, o) && Movable(s, i) && HomeKnown(s, i) && PlacingMove(t, s, b, i)
    requires from.None? || from == s.irq[i].home
    ensures b in s.obj
    ensures
      var r := MigrateObj(s, from, Some(b), i);
      Known(t, s, o) && Known(t, r, o) && Surplus(t, r, o) == Surplus(t, s, o)
  {
    hide MigrateObj, Owned, Movable, NoDup, Reach, SumLoads, Brought, Shaped;
    MovableMeans(s, i);
    var home := s.irq[i].home;
    var r := MigrateObj(s, from, Some(b), i);
    BasicKnown(t, s, o);
    MoveKnown(t, s, from, b, i, o);
    MigrateLoads(s, from, b, i);
    TargetParent(t, s, b, i, o);
    SumLoadsMoved(s, r, t.at[o].children, b, s.irq[i].load + 1);
    MoveBrought(t, s, from, b, i, o);
  }

  lemma MoveKnown(t: Topo, s: State, from: Option<ObjId>, b: ObjId, i: IrqId, o: ObjId)
    requires Basic(t, s) && Movable(s, i) && HomeKnown(s, i) && s.irq[i].level != NoBalance
    requires from.None? || from == s.irq[i].home
    requires o in t.at && b in t.at
    ensures Known(t, MigrateObj(s, from, Some(b), i), o)
  {
    hide MigrateObj, Owned, Movable, Shaped;
    MovableMeans(s, i);
    MigrateOwned(s, from, Some(b), i);
    MigrateFound(s, from, Some(b), i);
    var r := MigrateObj(s, from, Some(b), i);
    assert Fits(t, r);
    BasicKnown(t, r, o);
  }

  lemma NotInDrop(s: State, o: ObjId, i: IrqId)
    requires Owned(s) && o in s.obj
    ensures i !in Drop(s.obj[o].irqs, i)
    ensures forall x :: x in Drop(s.obj[o].irqs, i) ==> x in s.obj[o].irqs
  {
    assert NoRepeat(s, Some(o));
    DropElems(s.obj[o].irqs, i);
  }

  lemma NotListed(s: State, o: ObjId, i: IrqId)
    requires Owned(s) && o in s.obj && i in s.irq && s.irq[i].home != Some(o)
    ensures i !in s.obj[o].irqs
  {
    assert !FoundAt(s, i, Some(o));
  }

  /** Every object with children of its own has the same surplus in r as in s. */
  ghost predicate SurplusKept(t: Topo, s: State, r: State)
    requires Shaped(t)
  {
    forall o :: OwnKids(t, o) ==>
      Known(t, s, o) && Known(t, r, o) && Surplus(t, r, o) == Surplus(t, s, o)
  }

  lemma SurplusRefl(t: Topo, s: State)
    requires Basic(t, s)
    ensures SurplusKept(t, s, s)
  {
    hide Owned, Reach, Known, Surplus;
    forall o | OwnKids(t, o)
      ensures Known(t, s, o)
    {
      BasicKnown(t, s, o);
    }
  }

  lemma SurplusTrans(t: Topo, s: State, r: State, q: State)
    requires Shaped(t) && SurplusKept(t, s, r) && SurplusKept(t, r, q)
    ensures SurplusKept(t, s, q)
  {
    hide Reach, Known, Surplus, Shaped;
  }

  lemma PlaceIrqSurplus(t: Topo, s: State, d: ObjId, i: IrqId)
    requires Basic(t, s) && Placed(t, s) && Linked(s)
    requires d in t.at && i in s.irq && s.irq[i].home == Some(d)
    ensures SurplusKept(t, s, PlaceIrq(t, s, d, i))
  {
    hide MigrateObj, FindBest, Owned, Reach, Movable, Known, Surplus, OwnKids, Unused, SlotsOk, Shaped;
    KidsKnown(t, d);
    SurplusRefl(t, s);
    var b := FindBest(t, s, t.at[d].children);
    if s.irq[i].moved && !StaysAt(t.at[d].kind, s.irq[i].level) && b.Some? {
      MovedIsBalanced(s, i);
      InDb(s, i);
      OwnedMovable(s, i);
      forall o | OwnKids(t, o)
        ensures Known(t, s, o) && Known(t, PlaceIrq(t, s, d, i), o) && Surplus(t, PlaceIrq(t, s, d, i), o) == Surplus(t, s, o)
      {
        MoveSurplus(t, s, Some(d), b.value, i, o);
      }
    }
  }

  lemma {:induction false} PlaceIrqsSurplus(t: Topo, s: State, d: ObjId, list: seq<IrqId>)
    requires Basic(t, s) && Placed(t, s) && Linked(s) && d in t.at && AllAt(s, list, d) && NoDup(list)
    ensures SurplusKept(t, s, PlaceIrqs(t, s, d, list))
    decreases |list|
  {
    hide Kept, PlaceIrq, Owned, Shaped, SurplusKept, OwnKids, Placed;
    if |list| == 0 {
      SurplusRefl(t, s);
    } else {
      var init, i := list[..|list| - 1], list[|list| - 1];
      assert i !in init;
      PlaceIrqsSurplus(t, s, d, init);
      PlaceIrqsKept(t, s, d, init);
      var r := PlaceIrqs(t, s, d, init);
      KeptPlaced(t, s, r);
      PlaceIrqSurplus(t, r, d, i);
      SurplusTrans(t, s, r, PlaceIrq(t, r, d, i));
    }
  }

  lemma KeptPlaced(t: Topo, s: State, r: State)
    requires Kept(t, s, r)
    ensures Basic(t, r) && r.irq.Keys == s.irq.Keys && (Placed(t, s) ==> Placed(t, r))
  {
  }

  lemma PlaceInNodeSurplus(t: Topo, s: State, i: IrqId)
    requires Basic(t, s) && Linked(s)
    requires i in s.irq && s.irq[i].home == None && s.irq[i].level != NoBalance
    ensures SurplusKept(t, s, PlaceInNode(t, s, i))
  {
    hide MigrateObj, FindBest, Owned, Reach, Movable, Known, Surplus, OwnKids;
    SurplusRefl(t, s);
    InDb(s, i);
    OwnedMovable(s, i);
    var n := s.irq[i].node;
    var b := if (t.at[n].number != NUMA_NO_NODE || !t.numaAvail) && Usable(t, n) then Some(n) else FindBest(t, s, t.nodes);
    if b.Some? {
      forall o | OwnKids(t, o)
        ensures Known(t, s, o) && Known(t, PlaceInNode(t, s, i), o) && Surplus(t, PlaceInNode(t, s, i), o) == Surplus(t, s, o)
      {
        MoveSurplus(t, s, None, b.value, i, o);
      }
    }
  }

  lemma {:induction false} PlaceInNodesSurplus(t: Topo, s: State, list: seq<IrqId>)
    requires Basic(t, s) && Linked(s) && AllWaiting(s, list) && NoDup(list)
    ensures SurplusKept(t, s, PlaceInNodes(t, s, list))
    decreases |list|
  {
    hide Kept, PlaceInNode, Owned, Shaped, SurplusKept, OwnKids;
    if |list| == 0 {
      SurplusRefl(t, s);
    } else {
      var init, i := list[..|list| - 1], list[|list| - 1];
      assert i !in init;
      PlaceInNodesSurplus(t, s, init);
      PlaceInNodesKept(t, s, init);
      var r := PlaceInNodes(t, s, init);
      KeptMeans(t, s, r);
      PlaceInNodeSurplus(t, r, i);
      SurplusTrans(t, s, r, PlaceInNode(t, r, i));
    }
  }

  lemma {:induction false} PlaceObjsSurplus(t: Topo, s: State, list: seq<ObjId>)
    requires Basic(t, s) && Placed(t, s) && forall d :: d in list ==> d in t.at
    ensures SurplusKept(t, s, PlaceObjs(t, s, list))
    decreases |list|
  {
    hide Kept, PlaceIrqs, Owned, Shaped, SurplusKept, OwnKids, Placed;
    if |list| == 0 {
      SurplusRefl(t, s);
    } else {
      var init, d := list[..|list| - 1], list[|list| - 1];
      PlaceObjsSurplus(t, s, init);
      var q := PlaceObjs(t, s, init);
      KeptPlaced(t, s, q);
      OwnedLists(q);
      PlaceIrqsSurplus(t, q, d, q.obj[d].irqs);
      SurplusTrans(t, s, q, PlaceObj(t, q, d));
    }
  }

  lemma SortSurplus(t: Topo, s: State, l: seq<IrqId>)
    requires Basic(t, s)
    ensures SurplusKept(t, s, s.(rebalance := l))
  {
    hide Owned, Reach, Shaped, NoDup, Brought, SumLoads;
    var r := s.(rebalance := l);
    forall o | OwnKids(t, o)
      ensures Known(t, s, o) && Known(t, r, o) && Surplus(t, r, o) == Surplus(t, s, o)
    {
      BasicKnown(t, s, o);
      BroughtSame(s, r, s.obj[o].irqs);
      SameSums(s, r, t.at[o].children);
    }
  }

  /** calculate_placement changes no object's surplus, whatever state it starts in. */
  lemma PlacementConserves(t: Topo, s: State)
    requires Basic(t, s) && Placed(t, s)
    ensures SurplusKept(t, s, CalculatePlacement(t, s))
  {
    hide Kept, PlaceObjs, PlaceInNodes, Owned, Shaped, SurplusKept, OwnKids, Placed, Sort;
    OwnedLists(s);
    SortKept(t, s);
    var s0 := s.(rebalance := Sort(s, s.rebalance));
    KeptPlaced(t, s, s0);
    SortSurplus(t, s, Sort(s, s.rebalance));
    if |s0.rebalance| > 0 {
      OwnedLists(s0);
      PlaceInNodesKept(t, s0, s0.rebalance);
      PlaceInNodesSurplus(t, s0, s0.rebalance);
      var s1 := PlaceInNodes(t, s0, s0.rebalance);
      KeptPlaced(t, s0, s1);
      TreeLists(t);
      PlaceObjsSurplus(t, s1, t.nodes);
      var s2 := PlaceObjs(t, s1, t.nodes);
      KeptPlaced(t, s1, s2);
      PlaceObjsSurplus(t, s2, t.packages);
      var s3 := PlaceObjs(t, s2, t.packages);
      KeptPlaced(t, s2, s3);
      PlaceObjsSurplus(t, s3, t.caches);
      SurplusTrans(t, s, s0, s1);
      SurplusTrans(t, s, s1, s2);
      SurplusTrans(t, s, s2, s3);
      SurplusTrans(t, s, s3, PlaceObjs(t, s3, t.caches));
    }
  }

  /**
   Starting where each parent's load is the sum of its children's and no placed interrupt has
   just moved, each object ends with its children's loads plus load + 1 for each interrupt
   that arrived there and stayed.
   */
  lemma PlacementConservesLoad(t: Topo, s: State, d: ObjId)
    requires Basic(t, s) && Placed(t, s) && OwnKids(t, d)
    requires Known(t, s, d) && s.obj[d].load == SumLoads(s, t.at[d].children)
    requires forall i :: i in s.obj[d].irqs ==> !s.irq[i].moved
    ensures
      var r := CalculatePlacement(t, s);
      && Known(t, r, d)
      && r.obj[d].load == SumLoads(r, t.at[d].children) + Brought(r, r.obj[d].irqs)
  {
    hide CalculatePlacement, Owned, Shaped, OwnKids, Placed, Reach;
    PlacementConserves(t, s);
    NothingBrought(s, s.obj[d].irqs);
    var r := CalculatePlacement(t, s);
    assert Surplus(t, r, d) == Surplus(t, s, d);
  }

  lemma {:induction false} NothingBrought(s: State, l: seq<IrqId>)
    requires forall i :: i in l ==> i in s.irq && !s.irq[i].moved
    ensures Brought(s, l) == 0
  {
    if |l| > 0 { NothingBrought(s, l[1..]); }
  }

  // ---- the greedy bound

  /** No child's load exceeds another's by more than m. */
  ghost predicate Spread(s: State, cs: seq<ObjId>, m: nat) {
    forall a, b :: a in cs && b in cs && a in s.obj && b in s.obj ==> s.obj[a].load <= s.obj[b].load + m
  }

  /** Every child may be chosen and none has a slot limit. */
  ghost predicate AllOpen(t: Topo, s: State, cs: seq<ObjId>) {
    forall c :: c in cs ==> c in t.at && c in s.obj && Eligible(t, s, c) && s.obj[c].slots == INT_MAX
  }

  lemma PlaceIrqSpread(t: Topo, s: State, d: ObjId, i: IrqId, m: nat)
    requires Basic(t, s) && Linked(s) && d in t.at && i in s.irq && s.irq[i].home == Some(d)
    requires AllOpen(t, s, t.at[d].children) && Spread(s, t.at[d].children, m)
    requires s.irq[i].moved && !StaysAt(t.at[d].kind, s.irq[i].level) ==> s.irq[i].load + 1 <= m
    ensures
      var r := PlaceIrq(t, s, d, i);
      AllOpen(t, r, t.at[d].children) && Spread(r, t.at[d].children, m)
  {
    hide MigrateObj, FindBest, Owned, Movable, Eligible, Spread, AllOpen, Shaped;
    KidsKnown(t, d);
    var cs := t.at[d].children;
    var b := FindBest(t, s, cs);
    if s.irq[i].moved && !StaysAt(t.at[d].kind, s.irq[i].level) && b.Some? {
      MovedIsBalanced(s, i);
      InDb(s, i);
      OwnedMovable(s, i);
      MovableMeans(s, i);
      MigrateLoads(s, Some(d), b.value, i);
      var r := MigrateObj(s, Some(d), b, i);
      assert r == PlaceIrq(t, s, d, i);
      MigrateOpen(t, s, Some(d), b, i, cs);
      ArriveAtLeast(t, s, r, cs, b.value, s.irq[i].load + 1, m);
    }
  }

  lemma MigrateOpen(t: Topo, s: State, from: Option<ObjId>, to: Option<ObjId>, i: IrqId, cs: seq<ObjId>)
    requires HomeKnown(s, i) && (from.Some? ==> from.value in s.obj) && (to.Some? ==> to.value in s.obj)
    requires AllOpen(t, s, cs)
    ensures AllOpen(t, MigrateObj(s, from, to, i), cs)
  {
    hide MigrateObj, Usable;
    forall c | c in cs
      ensures c in MigrateObj(s, from, to, i).obj
      ensures Eligible(t, MigrateObj(s, from, to, i), c) && MigrateObj(s, from, to, i).obj[c].slots == INT_MAX
    {
      MigrateFree(s, from, to, i, c);
    }
  }

  /** Adding at most m to a least loaded child keeps the spread. */
  lemma ArriveAtLeast(t: Topo, s: State, r: State, cs: seq<ObjId>, b: ObjId, w: nat, m: nat)
    requires AllOpen(t, s, cs) && Spread(s, cs, m) && LoadMoved(s, r, b, w) && w <= m
    requires (forall c :: c in cs ==> c in t.at && c in s.obj) && FindBest(t, s, cs) == Some(b)
    ensures Spread(r, cs, m)
  {
    hide FindBest, Eligible;
    forall c | c in cs
      ensures s.obj[b].load <= s.obj[c].load
    {
      FindBestIsMinimal(t, s, cs, c);
    }
  }

  /** Slots without a limit stay so; the powersave flag is not touched. */
  lemma MigrateFree(s: State, from: Option<ObjId>, to: Option<ObjId>, i: IrqId, o: ObjId)
    requires HomeKnown(s, i) && (from.Some? ==> from.value in s.obj) && (to.Some? ==> to.value in s.obj) && o in s.obj
    ensures
      var r := MigrateObj(s, from, to, i);
      o in r.obj && r.obj[o].powersave == s.obj[o].powersave && (s.obj[o].slots == INT_MAX ==> r.obj[o].slots == INT_MAX)
  {
    hide MigrateIrq;
    var src := if from.None? then s.irq[i].home else from;
    MoveFree(s, src, to, i, o);
  }

  lemma MoveFree(s: State, from: Option<ObjId>, to: Option<ObjId>, i: IrqId, o: ObjId)
    requires i in s.irq && (from.Some? ==> from.value in s.obj) && (to.Some? ==> to.value in s.obj) && o in s.obj
    ensures
      var r := MigrateIrq(s, from, to, i);
      o in r.obj && r.obj[o].powersave == s.obj[o].powersave && r.obj[o].slots == s.obj[o].slots
  {
    hide Drop;
  }

  /** Placing any number of interrupts below an open object keeps the spread bound of its children. */
  lemma {:induction false} GreedySpread(t: Topo, s: State, d: ObjId, list: seq<IrqId>, m: nat)
    requires Basic(t, s) && Linked(s) && d in t.at && AllAt(s, list, d) && NoDup(list)
    requires AllOpen(t, s, t.at[d].children) && Spread(s, t.at[d].children, m)
    requires forall i :: i in list && s.irq[i].moved && !StaysAt(t.at[d].kind, s.irq[i].level) ==> s.irq[i].load + 1 <= m
    ensures
      var r := PlaceIrqs(t, s, d, list);
      AllOpen(t, r, t.at[d].children) && Spread(r, t.at[d].children, m)
    decreases |list|
  {
    hide Kept, PlaceIrq, Owned, Shaped, AllOpen, Spread;
    if |list| > 0 {
      var init, i := list[..|list| - 1], list[|list| - 1];
      assert i !in init;
      GreedySpread(t, s, d, init, m);
      PlaceIrqsKept(t, s, d, init);
      var r := PlaceIrqs(t, s, d, init);
      KeptMeans(t, s, r);
      PlaceIrqSpread(t, r, d, i, m);
    }
  }

  /** Hence no child ends more than m above the average of the children. */
  lemma {:induction false} AboveAverage(s: State, cs: seq<ObjId>, c: ObjId, m: nat)
    requires c in s.obj && forall x :: x in cs ==> x in s.obj && s.obj[c].load <= s.obj[x].load + m
    ensures |cs| * s.obj[c].load <= SumLoads(s, cs) + |cs| * m
  {
    if |cs| > 0 {
      AboveAverage(s, cs[1..], c, m);
      OneMore(|cs[1..]|, s.obj[c].load);
      OneMore(|cs[1..]|, m);
    }
  }

  lemma OneMore(n: nat, a: nat)
    ensures (n + 1) * a == n * a + a
  {
  }

  /** The whole pass over one object, with both bounds. */
  lemma PlaceObjBalanced(t: Topo, s: State, d: ObjId, m: nat)
    requires Basic(t, s) && d in t.at && AllOpen(t, s, t.at[d].children) && Spread(s, t.at[d].children, m)
    requires forall i :: i in s.obj[d].irqs && i in s.irq && s.irq[i].moved && !StaysAt(t.at[d].kind, s.irq[i].level) ==>
      s.irq[i].load + 1 <= m
    ensures
      var r := PlaceObj(t, s, d);
      var cs := t.at[d].children;
      && Spread(r, cs, m) && AllOpen(t, r, cs) && (forall c :: c in cs ==> c in r.obj)
      && forall c :: c in cs ==> |cs| * r.obj[c].load <= SumLoads(r, cs) + |cs| * m
  {
    hide PlaceIrqs, Owned, Shaped, SumLoads;
    OwnedLists(s);
    GreedySpread(t, s, d, s.obj[d].irqs, m);
    var r := PlaceObj(t, s, d);
    var cs := t.at[d].children;
    assert forall c :: c in cs ==> c in r.obj;
    forall c | c in cs
      ensures |cs| * r.obj[c].load <= SumLoads(r, cs) + |cs| * m
    {
      AboveAverage(r, cs, c, m);
    }
  }
}
