/** Selection takes interrupts off objects and leaves everything else about them alone. */
module Thinning {
  import opened Topology
  import opened Irqs
  import opened Invariant
  import opened Placement
  import opened Select

  /** Selection changes no object's load, and takes interrupts off without touching those that stay. */
  ghost predicate Thinned(s: State, r: State) {
    && r.obj.Keys == s.obj.Keys && (forall o :: o in s.obj ==> r.obj[o].load == s.obj[o].load)
    && (forall i :: i in r.irq && r.irq[i].home.Some? ==> i in s.irq && s.irq[i].home.Some? && r.irq[i].moved == s.irq[i].moved)
  }

  lemma ThinnedTrans(s: State, r: State, q: State)
    requires Thinned(s, r) && Thinned(r, q)
    ensures Thinned(s, q)
  {
  }

  lemma ForceThins(t: Topo, s: State, i: IrqId)
    requires Basic(t, s) && HomeKnown(s, i) && s.irq[i].home.Some?
    ensures Thinned(s, ForceRebalance(s, i))
  {
    hide MigrateObj, Owned, Shaped, Movable;
    if s.irq[i].level != NoBalance {
      InDb(s, i);
      OwnedMovable(s, i);
      MovableMeans(s, i);
      MigrateFound(s, s.irq[i].home, None, i);
      forall o | o in s.obj
        ensures o in ForceRebalance(s, i).obj && ForceRebalance(s, i).obj[o].load == s.obj[o].load
      {
        ToWaiting(s, i, o);
      }
    }
  }

  lemma {:induction false} WalkThins(t: Topo, p: Pick, o: ObjId, list: seq<IrqId>, ratio: nat, machine: bool)
    requires Basic(t, p.state) && AllAt(p.state, list, o) && NoDup(list)
    ensures Thinned(p.state, ConsiderAll(t, p, o, list, ratio, machine).state)
    decreases |list|
  {
    hide Basic, Kept, ForceRebalance, Accept, Linked, Thinned, Select.Candidate;
    if |list| == 0 {
      ThinnedSame(p.state);
    } else {
      var init, i := list[..|list| - 1], list[|list| - 1];
      assert i !in init;
      assert i in list;
      WalkThins(t, p, o, init, ratio, machine);
      var q := ConsiderAll(t, p, o, init, ratio, machine);
      BasicLinked(t, q.state);
      LinkedKnows(q.state, i);
      ForceThins(t, q.state, i);
      if Consider(q, i, ratio, machine) != q { ThinnedTrans(p.state, q.state, ForceRebalance(q.state, i)); }
    }
  }

  lemma ThinnedSame(s: State)
    ensures Thinned(s, s)
  {
  }

  lemma SelectFromThins(t: Topo, p: Pass, o: ObjId, ratio: nat, machine: bool)
    requires Basic(t, p.state) && o in t.at
    ensures Thinned(p.state, SelectFrom(t, p, o, ratio, machine).state)
  {
    hide Owned, Shaped, Kept, ConsiderAll, SortObj, Thinned, NoDup;
    OwnedLists(p.state);
    var s := p.state;
    if s.obj[o].load > p.minLoad && |s.obj[o].irqs| > 1 {
      var s0 := SortObj(s, o);
      SortObjKept(t, s, o);
      KeptMeans(t, s, s0);
      var p0 := Pick(s0, Figures(p.minLoad, s0.obj[o].load), []);
      WalkThins(t, p0, o, s0.obj[o].irqs, ratio, machine);
      SortThins(s, o);
      ThinnedTrans(s, s0, ConsiderAll(t, p0, o, s0.obj[o].irqs, ratio, machine).state);
    } else {
      ThinnedSame(s);
    }
  }

  lemma SortThins(s: State, o: ObjId)
    requires o in s.obj && forall x :: x in s.obj[o].irqs ==> x in s.irq
    ensures Thinned(s, SortObj(s, o))
  {
    hide Sort;
  }

  lemma {:induction false} PassThins(t: Topo, p: Pass, list: seq<ObjId>, ratio: nat, machine: bool)
    requires Basic(t, p.state) && forall o :: o in list ==> o in t.at
    ensures Thinned(p.state, SelectAll(t, p, list, ratio, machine).state)
    decreases |list|
  {
    hide Basic, Kept, SelectFrom, Thinned;
    if |list| == 0 {
      ThinnedSame(p.state);
    } else {
      PassThins(t, p, list[..|list| - 1], ratio, machine);
      var q := SelectAll(t, p, list[..|list| - 1], ratio, machine);
      SelectFromThins(t, q, list[|list| - 1], ratio, machine);
      ThinnedTrans(p.state, q.state, SelectFrom(t, q, list[|list| - 1], ratio, machine).state);
    }
  }

  lemma {:induction false} ForceAllThins(t: Topo, s: State, o: ObjId, list: seq<IrqId>)
    requires Basic(t, s) && AllAt(s, list, o) && NoDup(list)
    ensures Thinned(s, ForceAll(t, s, o, list))
    decreases |list|
  {
    hide Basic, Kept, ForceRebalance, Thinned;
    if |list| == 0 {
      ThinnedSame(s);
    } else {
      ForceAllThins(t, s, o, list[..|list| - 1]);
      var q := ForceAll(t, s, o, list[..|list| - 1]);
      ForceNext(t, s, q, o, list);
      ForceThins(t, q, list[|list| - 1]);
      ThinnedTrans(s, q, ForceRebalance(q, list[|list| - 1]));
    }
  }

  lemma PowerThins(t: Topo, s: State, p: Power)
    requires Basic(t, s)
    ensures Thinned(s, PowerStep(t, s, p))
  {
    hide Owned, Shaped, Kept, ForceAll, CpuFlags, Thinned, NoDup;
    ThinnedSame(s);
    match p
    case NoChange =>
    case Enter(c) =>
      if c in t.cpus {
        CpuFlagKept(t, s, {c}, true);
        var s1 := CpuFlags(s, {c}, true);
        OwnedLists(s1);
        ForceAllThins(t, s1, c, s1.obj[c].irqs);
        FlagsThin(s, {c}, true);
        ThinnedTrans(s, s1, ForceAll(t, s1, c, s1.obj[c].irqs));
      }
    case LeaveAll =>
      FlagsThin(s, set c | c in t.cpus, false);
  }

  lemma FlagsThin(s: State, cs: set<ObjId>, on: bool)
    ensures Thinned(s, CpuFlags(s, cs, on))
  {
  }

  lemma MigrationThins(t: Topo, s: State, p: Power, ratio: nat, machine: bool)
    requires Basic(t, s)
    ensures Thinned(s, UpdateMigration(t, s, p, ratio, machine))
  {
    hide Basic, Kept, SelectAll, PowerStep, MinLoad, Shaped, Thinned;
    TreeObjects(t, s);
    TreeLists(t);
    PassThins(t, Pass(s, MinLoad(s, t.cpus)), t.cpus, ratio, machine);
    var s1 := FindOverloaded(t, s, t.cpus, ratio, machine);
    PowerThins(t, s1, p);
    var s2 := PowerStep(t, s1, p);
    ThinnedTrans(s, s1, s2);
    TreeObjects(t, s2);
    PassThins(t, Pass(s2, MinLoad(s2, t.caches)), t.caches, ratio, machine);
    var s3 := FindOverloaded(t, s2, t.caches, ratio, machine);
    ThinnedTrans(s, s2, s3);
    TreeObjects(t, s3);
    PassThins(t, Pass(s3, MinLoad(s3, t.packages)), t.packages, ratio, machine);
    var s4 := FindOverloaded(t, s3, t.packages, ratio, machine);
    ThinnedTrans(s, s3, s4);
    TreeObjects(t, s4);
    PassThins(t, Pass(s4, MinLoad(s4, t.nodes)), t.nodes, ratio, machine);
    ThinnedTrans(s, s4, FindOverloaded(t, s4, t.nodes, ratio, machine));
  }
}
