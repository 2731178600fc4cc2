/** placement.c as methods on the global state. for_each_irq saves the next entry before each callback, so it visits the list as it was on entry. */
module PlacementCode {
  import opened Topology
  import opened Irqs
  import opened Invariant
  import opened Placement
  import opened Balancer

  /** A prefix one entry longer. */
  lemma Prefix<T>(l: seq<T>, k: nat)
    requires k < |l|
    ensures |l[..k + 1]| == k + 1 && l[..k + 1][..k] == l[..k] && l[..k + 1][k] == l[k]
  {
  }

  lemma Whole<T>(l: seq<T>)
    ensures l[..|l|] == l
  {
  }

  /** for_each_object(list, find_best_object): cost, slots and number of interrupts of the best object so far. */
  method FindBestObject(b: Balancer, list: seq<ObjId>) returns (best: Option<ObjId>)
    requires forall d :: d in list ==> d in b.t.at && d in b.obj
    ensures best == FindBest(b.t, b.Now(), list)
  {
    best := None;
    var bestCost, bestSlots, leastIrqs: int := 0, 0, 0;
    for k := 0 to |list|
      invariant best == FindBest(b.t, b.Now(), list[..k])
      invariant best.Some? ==>
        best.value in b.obj && bestCost == Cost(b.obj[best.value]) && bestSlots == b.obj[best.value].slots &&
        leastIrqs == |b.obj[best.value].irqs|
    {
      Prefix(list, k);
      var d := list[k];
      assert d in list;
      var o, p := b.obj[d], b.t.at[d];
      var skip := p.kind == Node && ((b.t.numaAvail && p.number == NUMA_NO_NODE) || !Usable(b.t, d));
      if !skip && !o.powersave && o.slots > 0 {
        var cost := o.load + if o.slots < SLOTS_PENALTY_THRESHOLD then (SLOTS_PENALTY_THRESHOLD - o.slots) * SLOTS_PENALTY_FACTOR else 0;
        var better := best.None? || cost < bestCost;
        if !better && cost == bestCost {
          better := o.slots > bestSlots || (o.slots == bestSlots && |o.irqs| < leastIrqs);
        }
        if better { best, bestCost, bestSlots, leastIrqs := Some(d), cost, o.slots, |o.irqs|; }
      }
    }
    Whole(list);
  }

  /** find_best_object_for_irq */
  method FindBestObjectForIrq(b: Balancer, d: ObjId, i: IrqId)
    requires Shaped(b.t) && b.obj.Keys == b.t.at.Keys && Linked(b.Now()) && i in b.irq && d in b.t.at
    modifies b`irq, b`rebalance, b`obj
    ensures b.Now() == PlaceIrq(b.t, old(b.Now()), d, i)
  {
    hide Shaped, MigrateObj, FindBest;
    KidsKnown(b.t, d);
    assert HomeKnown(b.Now(), i);
    if !b.irq[i].moved { return; }
    var level := b.irq[i].level;
    match b.t.at[d].kind {
      case Node => if level == NoBalance { return; }
      case Package => if level == PackageLevel { return; }
      case Cache => if level == CacheLevel { return; }
      case Cpu => if level == CoreLevel { return; }
    }
    var best := FindBestObject(b, b.t.at[d].children);
    if best.Some? { b.MigrateIrqObj(Some(d), best, i); }
  }

  /** place_irq_in_object */
  method PlaceIrqInObject(b: Balancer, d: ObjId)
    requires Basic(b.t, b.Now()) && d in b.t.at
    modifies b`irq, b`rebalance, b`obj
    ensures b.Now() == PlaceObj(b.t, old(b.Now()), d)
  {
    hide Shaped, Owned, PlaceIrq, Kept, Linked;
    ghost var s := b.Now();
    OwnedLists(s);
    PlaceIrqsKept(b.t, s, d, b.obj[d].irqs);
    var list := b.obj[d].irqs;
    for k := 0 to |list|
      invariant SameFrame(s, b.Now()) && b.Now() == PlaceIrqs(b.t, s, d, list[..k])
    {
      Prefix(list, k);
      assert list[k] in list;
      FindBestObjectForIrq(b, d, list[k]);
    }
    Whole(list);
  }

  method PlaceIrqInObjects(b: Balancer, list: seq<ObjId>)
    requires Basic(b.t, b.Now()) && forall d :: d in list ==> d in b.t.at
    modifies b`irq, b`rebalance, b`obj
    ensures b.Now() == PlaceObjs(b.t, old(b.Now()), list) && Basic(b.t, b.Now())
  {
    hide Basic, PlaceObj, Kept;
    ghost var s := b.Now();
    for k := 0 to |list|
      invariant Basic(b.t, b.Now()) && b.Now() == PlaceObjs(b.t, s, list[..k])
    {
      Prefix(list, k);
      KeptMeans(b.t, s, b.Now());
      ghost var q := b.Now();
      PlaceIrqInObject(b, list[k]);
      KeptMeans(b.t, q, b.Now());
    }
    Whole(list);
  }

  /** place_irq_in_node */
  method PlaceIrqInNode(b: Balancer, i: IrqId)
    requires Shaped(b.t) && b.obj.Keys == b.t.at.Keys && Linked(b.Now()) && i in b.irq && b.irq[i].node in b.t.nodes
    modifies b`irq, b`rebalance, b`obj
    ensures b.Now() == PlaceInNode(b.t, old(b.Now()), i)
  {
    hide Shaped, MigrateObj, FindBest;
    var n := b.irq[i].node;
    NodesInTree(b.t);
    assert HomeKnown(b.Now(), i);
    if b.irq[i].level == NoBalance && b.t.banned == {} { return; }
    if b.t.at[n].number != NUMA_NO_NODE || !b.t.numaAvail {
      if Usable(b.t, n) {
        b.MigrateIrqObj(None, Some(n), i);
        return;
      }
    }
    var best := FindBestObject(b, b.t.nodes);
    if best.Some? { b.MigrateIrqObj(None, best, i); }
  }

  /** for_each_irq(rebalance_irq_list, place_irq_in_node) */
  method PlaceWaiting(b: Balancer, list: seq<IrqId>)
    requires Fits(b.t, b.Now()) && Linked(b.Now()) && forall i :: i in list ==> i in b.irq
    modifies b`irq, b`rebalance, b`obj
    ensures b.Now() == PlaceInNodes(b.t, old(b.Now()), list)
  {
    hide Shaped, PlaceInNode, Linked;
    ghost var s := b.Now();
    for k := 0 to |list|
      invariant SameFrame(s, b.Now()) && Fits(b.t, b.Now()) && b.Now() == PlaceInNodes(b.t, s, list[..k])
    {
      Prefix(list, k);
      assert list[k] in list;
      PlaceInNodeFits(b.t, b.Now(), list[k]);
      PlaceIrqInNode(b, list[k]);
    }
    Whole(list);
  }

  /** calculate_placement */
  method CalculatePlacementNow(b: Balancer)
    requires Basic(b.t, b.Now())
    modifies b`irq, b`rebalance, b`obj
    ensures b.Now() == CalculatePlacement(b.t, old(b.Now()))
    ensures Basic(b.t, b.Now())
  {
    hide Shaped, Owned, Kept, PlaceInNodes, PlaceObjs, Sort;
    ghost var s := b.Now();
    OwnedLists(s);
    SortKept(b.t, s);
    b.rebalance := Sort(b.Now(), b.rebalance);
    KeptMeans(b.t, s, b.Now());
    if |b.rebalance| > 0 {
      OwnedLists(b.Now());
      ghost var s0 := b.Now();
      PlaceInNodesKept(b.t, s0, b.rebalance);
      PlaceWaiting(b, b.rebalance);
      KeptMeans(b.t, s0, b.Now());
      TreeLists(b.t);
      PlaceIrqInObjects(b, b.t.nodes);
      PlaceIrqInObjects(b, b.t.packages);
      PlaceIrqInObjects(b, b.t.caches);
    }
  }

  /** validate_object: how many interrupts of d name another home. */
  method ValidateObject(b: Balancer, d: ObjId) returns (errors: nat)
    requires d in b.obj && forall i :: i in b.obj[d].irqs ==> i in b.irq
    ensures errors == 0 <==> forall i :: i in b.obj[d].irqs ==> b.irq[i].home == Some(d)
  {
    var irqs := b.obj[d].irqs;
    errors := 0;
    for j := 0 to |irqs|
      invariant errors == 0 <==> forall i :: i in irqs[..j] ==> b.irq[i].home == Some(d)
    {
      Prefix(irqs, j);
      assert irqs[..j + 1] == irqs[..j] + [irqs[j]];
      if b.irq[irqs[j]].home != Some(d) { errors := errors + 1; }
    }
    Whole(irqs);
  }
}
