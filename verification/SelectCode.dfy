/** irqlist.c as methods: the running figures of load_balance_info and the walks over objects and interrupts. */
module SelectCode {
  import opened Topology
  import opened Irqs
  import opened Invariant
  import opened Placement
  import opened Select
  import opened Balancer
  import opened PlacementCode

  /** struct load_balance_info, without the statistics for powersaving */
  class LoadInfo {
    var minLoad: int
    var adjustmentLoad: int
    var loadSources: nat

    constructor ()
      ensures minLoad == 0 && adjustmentLoad == 0 && loadSources == 0
    {
      minLoad, adjustmentLoad, loadSources := 0, 0, 0;
    }

    function Figures(): Figures
      reads this
    {
      Select.Figures(minLoad, adjustmentLoad)
    }
  }

  /** for_each_object(list, gather_load_stats) */
  method GatherLoadStats(b: Balancer, list: seq<ObjId>, info: LoadInfo)
    requires forall o :: o in list ==> o in b.obj
    requires info.minLoad == 0 && info.loadSources == 0
    modifies info`minLoad, info`loadSources
    ensures info.minLoad == MinLoad(b.Now(), list)
  {
    for k := 0 to |list|
      invariant info.loadSources == k && info.minLoad == MinLoad(b.Now(), list[..k])
    {
      Prefix(list, k);
      assert list[k] in list;
      if info.loadSources == 0 || b.obj[list[k]].load < info.minLoad { info.minLoad := b.obj[list[k]].load; }
      info.loadSources := info.loadSources + 1;
    }
    Whole(list);
  }

  /** move_candidate_irqs; the machine subtracts modulo 2^64. */
  method MoveCandidateIrqs(b: Balancer, info: LoadInfo, i: IrqId, ratio: nat, ghost taken: seq<IrqId>) returns (ghost more: seq<IrqId>)
    requires Linked(b.Now()) && i in b.irq && b.irq[i].home.Some?
    modifies b`irq, b`rebalance, b`obj, info`minLoad, info`adjustmentLoad
    ensures Pick(b.Now(), info.Figures(), more) == Consider(Pick(old(b.Now()), old(info.Figures()), taken), i, ratio, true)
  {
    hide ForceRebalance, Linked;
    more := taken;
    LinkedKnows(b.Now(), i);
    var irq := b.irq[i];
    if irq.level == NoBalance { return; }
    if |b.obj[irq.home.value].irqs| <= 1 { return; }
    if irq.load <= 1 { return; }
    var delta := 0;
    if ratio > 0 { delta := Minus(info.adjustmentLoad, info.minLoad, true) / ratio; }
    if info.minLoad + irq.load < delta + Minus(info.adjustmentLoad, irq.load, true) {
      info.adjustmentLoad := Minus(info.adjustmentLoad, irq.load, true);
      info.minLoad := info.minLoad + irq.load;
      if info.minLoad > info.adjustmentLoad { info.minLoad := info.adjustmentLoad; }
      b.ForceRebalanceIrq(i);
      more := taken + [i];
    }
  }

  /** The part of migrate_overloaded_irqs that moves interrupts. */
  method MigrateOverloadedIrqs(b: Balancer, info: LoadInfo, o: ObjId, ratio: nat)
    requires Basic(b.t, b.Now()) && o in b.t.at
    modifies b`irq, b`rebalance, b`obj, info`minLoad, info`adjustmentLoad
    ensures Pass(b.Now(), info.minLoad) == SelectFrom(b.t, Pass(old(b.Now()), old(info.minLoad)), o, ratio, true)
    ensures Basic(b.t, b.Now())
  {
    hide Shaped, Owned, Kept, Sort, Consider;
    OwnedLists(b.Now());
    if b.obj[o].load > info.minLoad && |b.obj[o].irqs| > 1 {
      SortObjKept(b.t, b.Now(), o);
      ghost var s := b.Now();
      b.obj := b.obj[o := b.obj[o].(irqs := Sort(b.Now(), b.obj[o].irqs))];
      KeptMeans(b.t, s, b.Now());
      info.adjustmentLoad := b.obj[o].load;
      ghost var taken := WalkCandidates(b, info, o, b.obj[o].irqs, ratio);
    }
  }

  /** for_each_irq(obj->interrupts, move_candidate_irqs) */
  method WalkCandidates(b: Balancer, info: LoadInfo, o: ObjId, list: seq<IrqId>, ratio: nat) returns (ghost taken: seq<IrqId>)
    requires Basic(b.t, b.Now()) && NoDup(list) && AllAt(b.Now(), list, o)
    modifies b`irq, b`rebalance, b`obj, info`minLoad, info`adjustmentLoad
    ensures
      Pick(b.Now(), info.Figures(), taken)
      == ConsiderAll(b.t, Pick(old(b.Now()), old(info.Figures()), []), o, list, ratio, true)
    ensures Basic(b.t, b.Now())
  {
    hide Basic, Kept, Consider;
    ghost var p := Pick(b.Now(), info.Figures(), []);
    taken := [];
    for k := 0 to |list|
      invariant Basic(b.t, b.Now()) && NoDup(list[..k]) && AllAt(p.state, list[..k], o)
      invariant Pick(b.Now(), info.Figures(), taken) == ConsiderAll(b.t, p, o, list[..k], ratio, true)
    {
      Prefix(list, k);
      assert NoDup(list[..k + 1]) && AllAt(p.state, list[..k + 1], o);
      ghost var q := ConsiderAll(b.t, p, o, list[..k], ratio, true);
      ConsiderNext(b.t, p, q, o, list[..k + 1], ratio, true);
      taken := MoveCandidateIrqs(b, info, list[k], ratio, taken);
    }
    Whole(list);
  }

  method MigrateOverloadedObjs(b: Balancer, info: LoadInfo, list: seq<ObjId>, ratio: nat)
    requires Basic(b.t, b.Now()) && forall o :: o in list ==> o in b.t.at
    modifies b`irq, b`rebalance, b`obj, info`minLoad, info`adjustmentLoad
    ensures Pass(b.Now(), info.minLoad) == SelectAll(b.t, Pass(old(b.Now()), old(info.minLoad)), list, ratio, true)
    ensures Basic(b.t, b.Now())
  {
    hide Basic, Kept, SelectFrom;
    ghost var p := Pass(b.Now(), info.minLoad);
    for k := 0 to |list|
      invariant Basic(b.t, b.Now())
      invariant Pass(b.Now(), info.minLoad) == SelectAll(b.t, p, list[..k], ratio, true)
    {
      Prefix(list, k);
      assert list[k] in list;
      MigrateOverloadedIrqs(b, info, list[k], ratio);
    }
    Whole(list);
  }

  /** find_overloaded_objs */
  method FindOverloadedObjs(b: Balancer, list: seq<ObjId>, ratio: nat)
    requires Basic(b.t, b.Now()) && forall o :: o in list ==> o in b.t.at
    modifies b`irq, b`rebalance, b`obj
    ensures b.Now() == FindOverloaded(b.t, old(b.Now()), list, ratio, true) && Basic(b.t, b.Now())
  {
    hide Shaped, Owned, Kept, SelectAll;
    var info := new LoadInfo();
    GatherLoadStats(b, list, info);
    MigrateOverloadedObjs(b, info, list, ratio);
  }

  /** Entering powersave: the CPU's interrupts go back to the rebalance list. */
  method ForceAllFrom(b: Balancer, c: ObjId)
    requires Basic(b.t, b.Now()) && c in b.obj
    requires AllAt(b.Now(), b.obj[c].irqs, c) && NoDup(b.obj[c].irqs)
    modifies b`irq, b`rebalance, b`obj
    ensures b.Now() == ForceAll(b.t, old(b.Now()), c, old(b.obj[c].irqs)) && Basic(b.t, b.Now())
  {
    hide Basic, Kept, ForceRebalance;
    var list := b.obj[c].irqs;
    ghost var s := b.Now();
    for k := 0 to |list|
      invariant Basic(b.t, b.Now()) && NoDup(list[..k]) && AllAt(s, list[..k], c)
      invariant b.Now() == ForceAll(b.t, s, c, list[..k])
    {
      Prefix(list, k);
      assert NoDup(list[..k + 1]) && AllAt(s, list[..k + 1], c);
      ForceNext(b.t, s, b.Now(), c, list[..k + 1]);
      b.ForceRebalanceIrq(list[k]);
    }
    Whole(list);
  }

  /** for_each_object(cpus, clear_powersave_mode) */
  method ClearPowersave(b: Balancer)
    requires forall c :: c in b.t.cpus ==> c in b.obj
    modifies b`obj
    ensures b.Now() == CpuFlags(old(b.Now()), set c | c in b.t.cpus, false)
  {
    var list := b.t.cpus;
    ghost var before := b.obj;
    for k := 0 to |list|
      invariant b.obj == map o | o in before :: if o in list[..k] then before[o].(powersave := false) else before[o]
    {
      Prefix(list, k);
      assert list[..k + 1] == list[..k] + [list[k]];
      assert list[k] in list;
      b.obj := b.obj[list[k] := b.obj[list[k]].(powersave := false)];
    }
    Whole(list);
  }

  /** update_migration_status; the statistics have decided what happens to powersaving. */
  method UpdateMigrationStatus(b: Balancer, p: Power, ratio: nat)
    requires Basic(b.t, b.Now())
    modifies b`irq, b`rebalance, b`obj
    ensures b.Now() == UpdateMigration(b.t, old(b.Now()), p, ratio, true) && Basic(b.t, b.Now())
  {
    hide Owned, Shaped, Kept, FindOverloaded, ForceAll, Fits, CpuFlags;
    TreeListsOf(b.t, b.Now());
    FindOverloadedObjs(b, b.t.cpus, ratio);
    ChangePower(b, p);
    FindOverloadedObjs(b, b.t.caches, ratio);
    FindOverloadedObjs(b, b.t.packages, ratio);
    FindOverloadedObjs(b, b.t.nodes, ratio);
  }

  lemma TreeListsOf(t: Topo, s: State)
    requires Basic(t, s)
    ensures forall o :: o in t.nodes || o in t.packages || o in t.caches || o in t.cpus ==> o in t.at && o in s.obj
  {
    hide Shaped, Owned;
    TreeLists(t);
  }

  method ChangePower(b: Balancer, p: Power)
    requires Basic(b.t, b.Now())
    modifies b`irq, b`rebalance, b`obj
    ensures b.Now() == PowerStep(b.t, old(b.Now()), p) && Basic(b.t, b.Now())
  {
    hide Owned, Shaped, Kept, ForceAll;
    TreeListsOf(b.t, b.Now());
    match p {
      case NoChange =>
      case Enter(c) =>
        if c in b.t.cpus {
          CpuFlagKept(b.t, b.Now(), {c}, true);
          ghost var s1 := CpuFlags(b.Now(), {c}, true);
          b.obj := b.obj[c := b.obj[c].(powersave := true)];
          assert b.Now() == s1;
          OwnedLists(b.Now());
          ForceAllFrom(b, c);
        }
      case LeaveAll =>
        CpuFlagKept(b.t, b.Now(), set c | c in b.t.cpus, false);
        ClearPowersave(b);
    }
  }
}
