/** The choices of placement in plain numbers: which object is best, and in which order interrupts are placed. */
module Choice {
  import opened Topology
  import opened Irqs
  import opened Invariant
  import opened Placement

  /** The object may be chosen: out of powersave, with a free slot, and a node only if it is a real one with an unbanned CPU. */
  ghost predicate Admissible(t: Topo, s: State, d: ObjId) {
    && d in t.at && d in s.obj && !s.obj[d].powersave && s.obj[d].slots > 0
    && (t.at[d].kind == Node ==>
          !(t.numaAvail && t.at[d].number == -1) && exists c :: c in t.at[d].mask && c !in t.banned)
  }

  /** Load, plus 1000 for every slot short of ten. */
  ghost function Price(b: Obj): int { b.load + 1000 * (if b.slots < 10 then 10 - b.slots else 0) }

  /** b is a cheapest admissible object of the list; among those it has most slots, and among those fewest interrupts. */
  ghost predicate Cheapest(t: Topo, s: State, list: seq<ObjId>, b: ObjId) {
    && b in list && Admissible(t, s, b)
    && (forall d :: d in list && Admissible(t, s, d) ==>
          && Price(s.obj[b]) <= Price(s.obj[d])
          && (Price(s.obj[b]) == Price(s.obj[d]) ==> s.obj[b].slots >= s.obj[d].slots)
          && (Price(s.obj[b]) == Price(s.obj[d]) && s.obj[b].slots == s.obj[d].slots ==> |s.obj[b].irqs| <= |s.obj[d].irqs|))
  }

  lemma AdmissibleIs(t: Topo, s: State, d: ObjId)
    requires d in t.at && d in s.obj
    ensures Eligible(t, s, d) <==> Admissible(t, s, d)
  {
    hide Usable;
    UsableIs(t, d);
  }

  lemma PriceIs(d: Obj, b: Obj)
    ensures Cost(d) == Price(d)
    ensures !Better(d, b) <==>
      Price(b) < Price(d) || (Price(b) == Price(d) && (b.slots > d.slots || (b.slots == d.slots && |b.irqs| <= |d.irqs|)))
  {
  }

  /** find_best_object over a list, in numbers. */
  lemma BestIsCheapest(t: Topo, s: State, list: seq<ObjId>)
    requires forall d :: d in list ==> d in t.at && d in s.obj
    ensures
      match FindBest(t, s, list)
      case Some(b) => Cheapest(t, s, list, b)
      case None => forall d :: d in list ==> !Admissible(t, s, d)
  {
    hide Eligible, Admissible, Better, Cost, FindBest;
    forall d | d in list && Admissible(t, s, d)
      ensures FindBest(t, s, list).Some?
    {
      AdmissibleIs(t, s, d);
      FindBestIsMinimal(t, s, list, d);
    }
    var r := FindBest(t, s, list);
    if r.Some? {
      var b := r.value;
      AdmissibleIs(t, s, b);
      forall d | d in list && Admissible(t, s, d)
        ensures Price(s.obj[b]) <= Price(s.obj[d])
        ensures Price(s.obj[b]) == Price(s.obj[d]) ==> s.obj[b].slots >= s.obj[d].slots
        ensures Price(s.obj[b]) == Price(s.obj[d]) && s.obj[b].slots == s.obj[d].slots ==> |s.obj[b].irqs| <= |s.obj[d].irqs|
      {
        AdmissibleIs(t, s, d);
        FindBestIsMinimal(t, s, list, d);
        PriceIs(s.obj[d], s.obj[b]);
      }
    }
  }

  /** So nothing admissible has at most the load and strictly more slots. */
  lemma NothingDominates(t: Topo, s: State, list: seq<ObjId>, b: ObjId, d: ObjId)
    requires Cheapest(t, s, list, b) && d in list && Admissible(t, s, d)
    ensures !(s.obj[d].load <= s.obj[b].load && s.obj[d].slots > s.obj[b].slots)
  {
    hide Admissible;
  }

  /** find_best_object_for_irq: a moved interrupt not at its level goes to a cheapest child, with its load; with none it stays. */
  lemma PlaceIrqChooses(t: Topo, s: State, d: ObjId, i: IrqId)
    requires Basic(t, s) && Linked(s) && d in t.at && i in s.irq && s.irq[i].home == Some(d) && s.irq[i].moved
    requires !StaysAt(t.at[d].kind, s.irq[i].level)
    ensures
      var r := PlaceIrq(t, s, d, i);
      && i in r.irq
      && match r.irq[i].home
         case None => false
         case Some(b) => Cheapest(t, s, t.at[d].children, b) ||
                         (b == d && r == s && forall c :: c in t.at[d].children ==> !Admissible(t, s, c))
  {
    hide MigrateObj, FindBest, Owned, Shaped, Movable, Cheapest, Admissible;
    KidsKnown(t, d);
    BestIsCheapest(t, s, t.at[d].children);
    var b := FindBest(t, s, t.at[d].children);
    if b.Some? {
      MovedIsBalanced(s, i);
      InDb(s, i);
      OwnedMovable(s, i);
      MovableMeans(s, i);
      MigrateFound(s, Some(d), b, i);
    }
  }

  /** place_irq_in_node: the preferred node if it is a real one (or NUMA is off) with an unbanned CPU, else a cheapest node. */
  lemma PlaceInNodeChoosesBest(t: Topo, s: State, i: IrqId)
    requires Basic(t, s) && Linked(s) && i in s.irq && s.irq[i].home == None && s.irq[i].level != NoBalance
    ensures
      var r := PlaceInNode(t, s, i);
      var n := s.irq[i].node;
      && i in r.irq && n in t.at
      && if (t.at[n].number != -1 || !t.numaAvail) && (exists c :: c in t.at[n].mask && c !in t.banned) then r.irq[i].home == Some(n)
         else match r.irq[i].home
              case Some(b) => Cheapest(t, s, t.nodes, b)
              case None => forall m :: m in t.nodes ==> !Admissible(t, s, m)
  {
    hide MigrateObj, FindBest, Owned, Shaped, Movable, Cheapest, Admissible, Usable;
    NodesInTree(t);
    BestIsCheapest(t, s, t.nodes);
    InDb(s, i);
    OwnedMovable(s, i);
    MovableMeans(s, i);
    var n := s.irq[i].node;
    UsableIs(t, n);
    if (t.at[n].number != NUMA_NO_NODE || !t.numaAvail) && Usable(t, n) {
      MigrateFound(s, None, Some(n), i);
    } else {
      var b := FindBest(t, s, t.nodes);
      if b.Some? { MigrateFound(s, None, b, i); }
    }
  }

  lemma UsableIs(t: Topo, d: ObjId)
    requires d in t.at
    ensures Usable(t, d) <==> exists c :: c in t.at[d].mask && c !in t.banned
  {
    if Usable(t, d) {
      var c :| c in t.at[d].mask - t.banned;
      assert c in t.at[d].mask && c !in t.banned;
    } else {
      forall c | c in t.at[d].mask
        ensures c in t.banned
      {
        assert c !in t.at[d].mask - t.banned;
      }
    }
  }

  // ---- the order

  /** sort_irq_list by fields: the higher class first, and within a class the higher load. */
  lemma SortByFields(s: State, l: seq<IrqId>, a: nat, b: nat)
    requires (forall x :: x in l ==> x in s.irq) && a < b < |Sort(s, l)|
    ensures
      var r := Sort(s, l);
      && r[a] in s.irq && r[b] in s.irq && multiset(r) == multiset(l)
      && s.irq[r[a]].cls >= s.irq[r[b]].cls
      && (s.irq[r[a]].cls == s.irq[r[b]].cls ==> s.irq[r[a]].load >= s.irq[r[b]].load)
  {
    hide Sort;
    SortIsSorted(s, l);
    var r := Sort(s, l);
    assert r[a] in r && r[b] in r;
  }

  lemma BeforeBoth(s: State, i: IrqId, j: IrqId)
    requires i in s.irq && j in s.irq && Before(s.irq[i], i, s.irq[j], j) && Before(s.irq[j], j, s.irq[i], i)
    ensures i == j
  {
  }

  /** Only one order of the same interrupts is sorted. */
  lemma {:induction false} SortedOnce(s: State, a: seq<IrqId>, b: seq<IrqId>)
    requires multiset(a) == multiset(b) && forall x :: x in a || x in b ==> x in s.irq
    requires Sorted(s, a) && Sorted(s, b)
    ensures a == b
    decreases |a|
  {
    hide Sorted, Before;
    assert |multiset(a)| == |a| && |multiset(b)| == |b|;
    if |a| > 0 {
      SameHead(s, a, b);
      TailSorted(s, a);
      TailSorted(s, b);
      TailsAlike(a, b);
      SortedOnce(s, a[1..], b[1..]);
      assert a == [a[0]] + a[1..] && b == [b[0]] + b[1..];
    }
  }

  lemma SameHead(s: State, a: seq<IrqId>, b: seq<IrqId>)
    requires multiset(a) == multiset(b) && |a| > 0 && |b| > 0 && forall x :: x in a || x in b ==> x in s.irq
    requires Sorted(s, a) && Sorted(s, b)
    ensures a[0] == b[0]
  {
    hide Sorted, Before;
    assert a[0] in multiset(b) && b[0] in multiset(a);
    FirstBefore(s, a, b[0]);
    FirstBefore(s, b, a[0]);
    BeforeBoth(s, a[0], b[0]);
  }

  lemma TailsAlike(a: seq<IrqId>, b: seq<IrqId>)
    requires multiset(a) == multiset(b) && |a| > 0 && |b| > 0 && a[0] == b[0]
    ensures multiset(a[1..]) == multiset(b[1..])
  {
    assert a == [a[0]] + a[1..] && b == [b[0]] + b[1..];
    assert multiset(a[1..]) == multiset(a) - multiset{a[0]};
  }

  lemma TailSorted(s: State, l: seq<IrqId>)
    requires |l| > 0 && (forall x :: x in l ==> x in s.irq) && Sorted(s, l)
    ensures (forall x :: x in l[1..] ==> x in s.irq) && Sorted(s, l[1..])
  {
    hide Before;
    var r := l[1..];
    forall a, b | 0 <= a < b < |r|
      ensures r[a] in s.irq && r[b] in s.irq && Before(s.irq[r[a]], r[a], s.irq[r[b]], r[b])
    {
      assert r[a] == l[a + 1] && r[b] == l[b + 1];
    }
  }

  lemma FirstBefore(s: State, l: seq<IrqId>, x: IrqId)
    requires x in l && (forall x :: x in l ==> x in s.irq) && Sorted(s, l)
    ensures Before(s.irq[l[0]], l[0], s.irq[x], x)
  {
    var k :| 0 <= k < |l| && l[k] == x;
  }

  /** calculate_placement does not depend on the order in which interrupts came to wait. */
  lemma PlacementOrderFree(t: Topo, s: State, r: State)
    requires Basic(t, s) && Basic(t, r) && r == s.(rebalance := r.rebalance) && multiset(r.rebalance) == multiset(s.rebalance)
    ensures CalculatePlacement(t, r) == CalculatePlacement(t, s)
  {
    hide Kept, PlaceObjs, PlaceInNodes, Owned, Shaped, Sort;
    OwnedLists(s);
    OwnedLists(r);
    SortIsSorted(s, s.rebalance);
    SortIsSorted(r, r.rebalance);
    SortedAlike(r, s, Sort(r, r.rebalance));
    SortedOnce(s, Sort(s, s.rebalance), Sort(r, r.rebalance));
    assert r.(rebalance := Sort(r, r.rebalance)) == s.(rebalance := Sort(s, s.rebalance));
  }

  lemma SortedAlike(s: State, r: State, l: seq<IrqId>)
    requires r.irq == s.irq && (forall x :: x in l ==> x in s.irq) && Sorted(s, l)
    ensures Sorted(r, l)
  {
    hide Before;
  }
}
