/** From waiting to written: after a cycle every balanced interrupt whose writes the kernel takes is at home and set. */
module Service {
  import opened Topology
  import opened Irqs
  import opened Invariant
  import opened Placement
  import opened Balance
  import opened Levels
  import opened Stat
  import opened Select
  import opened Activate
  import opened Activation
  import opened Effects
  import opened Interrupts
  import opened Scan
  import opened Cycles

  // ---- a new home is always marked

  /** Levels stay, a changed home is marked as moved, and no mark is taken back. */
  ghost predicate Marked(s: State, r: State) {
    && r.irq.Keys == s.irq.Keys
    && forall i :: i in s.irq ==>
         && r.irq[i].level == s.irq[i].level && (r.irq[i].home != s.irq[i].home ==> r.irq[i].moved)
         && (s.irq[i].moved ==> r.irq[i].moved)
  }

  /** And what has a home does not lose it. */
  ghost predicate Advanced(s: State, r: State) {
    Marked(s, r) && forall i :: i in s.irq && s.irq[i].home.Some? ==> r.irq[i].home.Some?
  }

  lemma MarkedTrans(s: State, r: State, q: State)
    requires Marked(s, r) && Marked(r, q)
    ensures Marked(s, q)
  {
  }

  lemma AdvancedTrans(s: State, r: State, q: State)
    requires Advanced(s, r) && Advanced(r, q)
    ensures Advanced(s, q)
  {
  }

  lemma SameRecords(s: State, r: State)
    requires r.irq == s.irq
    ensures Advanced(s, r)
  {
  }

  lemma MeasuredMarks(s: State, r: State)
    requires Measured(s, r)
    ensures Marked(s, r)
  {
  }

  /** migrate_irq_obj: the home changes only together with the mark. */
  lemma MigrateMarks(s: State, from: Option<ObjId>, to: Option<ObjId>, i: IrqId)
    requires HomeKnown(s, i) && (from.Some? ==> from.value in s.obj) && (to.Some? ==> to.value in s.obj)
    ensures Marked(s, MigrateObj(s, from, to, i))
    ensures to.Some? ==> Advanced(s, MigrateObj(s, from, to, i))
  {
    hide MigrateObj;
    MigrateRecord(s, from, to, i);
  }

  // ---- placement

  lemma PlaceIrqAdvances(t: Topo, s: State, d: ObjId, i: IrqId)
    requires Shaped(t) && s.obj.Keys == t.at.Keys && Linked(s) && i in s.irq && d in t.at
    ensures Advanced(s, PlaceIrq(t, s, d, i))
  {
    hide MigrateObj, FindBest, Shaped, Linked, Advanced, StaysAt;
    SameRecords(s, s);
    LinkedKnows(s, i);
    KidsKnown(t, d);
    var b := FindBest(t, s, t.at[d].children);
    if b.Some? { MigrateMarks(s, Some(d), b, i); }
  }

  lemma {:induction false} PlaceIrqsAdvance(t: Topo, s: State, d: ObjId, list: seq<IrqId>)
    requires Shaped(t) && s.obj.Keys == t.at.Keys && Linked(s) && d in t.at && forall i :: i in list ==> i in s.irq
    ensures Advanced(s, PlaceIrqs(t, s, d, list))
    decreases |list|
  {
    hide PlaceIrq, Shaped, Linked, Advanced;
    if |list| == 0 {
      SameRecords(s, s);
    } else {
      PlaceIrqsAdvance(t, s, d, list[..|list| - 1]);
      var q := PlaceIrqs(t, s, d, list[..|list| - 1]);
      PlaceIrqAdvances(t, q, d, list[|list| - 1]);
      AdvancedTrans(s, q, PlaceIrq(t, q, d, list[|list| - 1]));
    }
  }

  lemma PlaceObjAdvances(t: Topo, s: State, d: ObjId)
    requires Basic(t, s) && d in t.at
    ensures Advanced(s, PlaceObj(t, s, d))
  {
    hide Owned, Shaped, Kept, PlaceIrqs, Advanced, NoDup;
    OwnedLists(s);
    PlaceIrqsAdvance(t, s, d, s.obj[d].irqs);
  }

  lemma {:induction false} PlaceObjsAdvance(t: Topo, s: State, list: seq<ObjId>)
    requires Basic(t, s) && forall d :: d in list ==> d in t.at
    ensures Advanced(s, PlaceObjs(t, s, list))
    decreases |list|
  {
    hide Basic, Kept, PlaceObj, Advanced;
    if |list| == 0 {
      SameRecords(s, s);
    } else {
      PlaceObjsAdvance(t, s, list[..|list| - 1]);
      var q := PlaceObjs(t, s, list[..|list| - 1]);
      KeptMeans(t, s, q);
      PlaceObjAdvances(t, q, list[|list| - 1]);
      AdvancedTrans(s, q, PlaceObj(t, q, list[|list| - 1]));
    }
  }

  lemma PlaceInNodeAdvances(t: Topo, s: State, i: IrqId)
    requires Fits(t, s) && Linked(s) && i in s.irq
    ensures Advanced(s, PlaceInNode(t, s, i))
  {
    hide MigrateObj, FindBest, Shaped, Linked, Advanced, Usable;
    SameRecords(s, s);
    LinkedKnows(s, i);
    NodesInTree(t);
    var n := s.irq[i].node;
    MigrateMarks(s, None, Some(n), i);
    var b := FindBest(t, s, t.nodes);
    if b.Some? { MigrateMarks(s, None, b, i); }
  }

  lemma {:induction false} PlaceInNodesAdvance(t: Topo, s: State, list: seq<IrqId>)
    requires Fits(t, s) && Linked(s) && forall i :: i in list ==> i in s.irq
    ensures Advanced(s, PlaceInNodes(t, s, list))
    decreases |list|
  {
    hide PlaceInNode, Shaped, Linked, Advanced;
    if |list| == 0 {
      SameRecords(s, s);
    } else {
      PlaceInNodesAdvance(t, s, list[..|list| - 1]);
      var q := PlaceInNodes(t, s, list[..|list| - 1]);
      PlaceInNodeAdvances(t, q, list[|list| - 1]);
      AdvancedTrans(s, q, PlaceInNode(t, q, list[|list| - 1]));
    }
  }

  lemma PlacementAdvances(t: Topo, s: State)
    requires Basic(t, s)
    ensures Advanced(s, CalculatePlacement(t, s))
  {
    hide Kept, Owned, Shaped, PlaceObjs, PlaceInNodes, Sort, Advanced, Linked, NoDup;
    OwnedLists(s);
    SortKept(t, s);
    var s0 := s.(rebalance := Sort(s, s.rebalance));
    KeptMeans(t, s, s0);
    SameRecords(s, s0);
    if |s0.rebalance| > 0 {
      OwnedLists(s0);
      PlaceInNodesKept(t, s0, s0.rebalance);
      PlaceInNodesAdvance(t, s0, s0.rebalance);
      var s1 := PlaceInNodes(t, s0, s0.rebalance);
      KeptMeans(t, s0, s1);
      TreeLists(t);
      PassesAdvance(t, s1);
      AdvancedTrans(s, s0, s1);
      AdvancedTrans(s, s1, CalculatePlacement(t, s));
    }
  }

  lemma PassesAdvance(t: Topo, s: State)
    requires Basic(t, s)
    ensures forall o :: o in t.nodes || o in t.packages || o in t.caches || o in t.cpus ==> o in t.at
    ensures
      var s2 := PlaceObjs(t, s, t.nodes);
      && Basic(t, s2)
      && var s3 := PlaceObjs(t, s2, t.packages);
         Basic(t, s3) && Advanced(s, PlaceObjs(t, s3, t.caches))
  {
    hide Kept, Owned, Shaped, PlaceObjs, Advanced;
    TreeLists(t);
    var s2 := PlaceObjs(t, s, t.nodes);
    KeptMeans(t, s, s2);
    var s3 := PlaceObjs(t, s2, t.packages);
    KeptMeans(t, s2, s3);
    PlaceObjsAdvance(t, s, t.nodes);
    PlaceObjsAdvance(t, s2, t.packages);
    PlaceObjsAdvance(t, s3, t.caches);
    AdvancedTrans(s, s2, s3);
    AdvancedTrans(s, s3, PlaceObjs(t, s3, t.caches));
  }

  // ---- selection

  lemma ForceMarks(s: State, i: IrqId)
    requires HomeKnown(s, i)
    ensures Marked(s, ForceRebalance(s, i))
  {
    hide MigrateObj, Marked;
    SameMarked(s, s);
    SameMarked(s, s.(rebalance := s.rebalance + [i]));
    if s.irq[i].home.Some? { MigrateMarks(s, s.irq[i].home, None, i); }
  }

  lemma SameMarked(s: State, r: State)
    requires r.irq == s.irq
    ensures Marked(s, r)
  {
  }

  lemma {:induction false} WalkMarks(t: Topo, p: Pick, o: ObjId, list: seq<IrqId>, ratio: nat, machine: bool)
    requires Basic(t, p.state) && AllAt(p.state, list, o) && NoDup(list)
    ensures Marked(p.state, ConsiderAll(t, p, o, list, ratio, machine).state)
    decreases |list|
  {
    hide Basic, Kept, ForceRebalance, Accept, Linked, Marked, Select.Candidate;
    if |list| == 0 {
      SameMarked(p.state, p.state);
    } else {
      var init, i := list[..|list| - 1], list[|list| - 1];
      LastApart(list);
      assert i in list;
      WalkMarks(t, p, o, init, ratio, machine);
      var q := ConsiderAll(t, p, o, init, ratio, machine);
      BasicLinked(t, q.state);
      LinkedKnows(q.state, i);
      ForceMarks(q.state, i);
      if Consider(q, i, ratio, machine) != q { MarkedTrans(p.state, q.state, ForceRebalance(q.state, i)); }
    }
  }

  lemma SelectFromMarks(t: Topo, p: Pass, o: ObjId, ratio: nat, machine: bool)
    requires Basic(t, p.state) && o in t.at
    ensures Marked(p.state, SelectFrom(t, p, o, ratio, machine).state)
  {
    hide Owned, Shaped, Kept, ConsiderAll, Sort, Marked, NoDup;
    OwnedLists(p.state);
    var s := p.state;
    SameMarked(s, s);
    if s.obj[o].load > p.minLoad && |s.obj[o].irqs| > 1 {
      var s0 := SortObj(s, o);
      SortObjKept(t, s, o);
      KeptMeans(t, s, s0);
      SameMarked(s, s0);
      var p0 := Pick(s0, Figures(p.minLoad, s0.obj[o].load), []);
      WalkMarks(t, p0, o, s0.obj[o].irqs, ratio, machine);
      MarkedTrans(s, s0, ConsiderAll(t, p0, o, s0.obj[o].irqs, ratio, machine).state);
    }
  }

  lemma {:induction false} PassMarks(t: Topo, p: Pass, list: seq<ObjId>, ratio: nat, machine: bool)
    requires Basic(t, p.state) && forall o :: o in list ==> o in t.at
    ensures Marked(p.state, SelectAll(t, p, list, ratio, machine).state)
    decreases |list|
  {
    hide Basic, Kept, SelectFrom, Marked;
    if |list| == 0 {
      SameMarked(p.state, p.state);
    } else {
      PassMarks(t, p, list[..|list| - 1], ratio, machine);
      var q := SelectAll(t, p, list[..|list| - 1], ratio, machine);
      SelectFromMarks(t, q, list[|list| - 1], ratio, machine);
      MarkedTrans(p.state, q.state, SelectFrom(t, q, list[|list| - 1], ratio, machine).state);
    }
  }

  lemma FoundMarks(t: Topo, s: State, list: seq<ObjId>, ratio: nat, machine: bool)
    requires Basic(t, s) && (forall o :: o in list ==> o in t.at) && forall o :: o in list ==> o in s.obj
    ensures Marked(s, FindOverloaded(t, s, list, ratio, machine))
  {
    hide Basic, Kept, SelectAll, Marked, MinLoad;
    PassMarks(t, Pass(s, MinLoad(s, list)), list, ratio, machine);
  }

  lemma {:induction false} ForceAllMarks(t: Topo, s: State, o: ObjId, list: seq<IrqId>)
    requires Basic(t, s) && AllAt(s, list, o) && NoDup(list)
    ensures Marked(s, ForceAll(t, s, o, list))
    decreases |list|
  {
    hide Basic, Kept, ForceRebalance, Marked;
    if |list| == 0 {
      SameMarked(s, s);
    } else {
      ForceAllMarks(t, s, o, list[..|list| - 1]);
      var q := ForceAll(t, s, o, list[..|list| - 1]);
      ForceNext(t, s, q, o, list);
      ForceMarks(q, list[|list| - 1]);
      MarkedTrans(s, q, ForceRebalance(q, list[|list| - 1]));
    }
  }

  lemma PowerMarks(t: Topo, s: State, p: Power)
    requires Basic(t, s)
    ensures Marked(s, PowerStep(t, s, p))
  {
    hide Owned, Shaped, Kept, ForceAll, Marked, NoDup;
    SameMarked(s, s);
    match p
    case NoChange =>
    case Enter(c) =>
      if c in t.cpus {
        CpuFlagKept(t, s, {c}, true);
        var s1 := CpuFlags(s, {c}, true);
        OwnedLists(s1);
        ForceAllMarks(t, s1, c, s1.obj[c].irqs);
        SameMarked(s, s1);
        MarkedTrans(s, s1, ForceAll(t, s1, c, s1.obj[c].irqs));
      }
    case LeaveAll =>
      SameMarked(s, CpuFlags(s, set c | c in t.cpus, false));
  }

  lemma SelectionMarks(t: Topo, s: State, p: Power, ratio: nat, machine: bool)
    requires Basic(t, s)
    ensures Marked(s, UpdateMigration(t, s, p, ratio, machine))
  {
    hide Basic, Kept, FindOverloaded, PowerStep, Shaped, Marked;
    TreeObjects(t, s);
    TreeLists(t);
    var s1 := FindOverloaded(t, s, t.cpus, ratio, machine);
    var s2 := PowerStep(t, s1, p);
    TreeObjects(t, s2);
    var s3 := FindOverloaded(t, s2, t.caches, ratio, machine);
    TreeObjects(t, s3);
    var s4 := FindOverloaded(t, s3, t.packages, ratio, machine);
    TreeObjects(t, s4);
    FoundMarks(t, s, t.cpus, ratio, machine);
    PowerMarks(t, s1, p);
    FoundMarks(t, s2, t.caches, ratio, machine);
    FoundMarks(t, s3, t.packages, ratio, machine);
    FoundMarks(t, s4, t.nodes, ratio, machine);
    MarkedTrans(s, s1, s2);
    MarkedTrans(s, s2, s3);
    MarkedTrans(s, s3, s4);
    MarkedTrans(s, s4, UpdateMigration(t, s, p, ratio, machine));
  }

  lemma SelectedMarks(t: Topo, cycle: nat, s: State, input: Input, machine: bool)
    requires Basic(t, s)
    ensures Marked(s, Selected(t, cycle, s, input, machine))
  {
    hide Basic, Kept, ReadStat, UpdateMigration, Marked, Measured;
    var rd := if cycle == 0 then FirstReading(input.rd) else input.rd;
    var q := ReadStat(t, s, rd);
    MeasuredMarks(s, q);
    KeptMeans(t, s, q);
    if cycle != 0 {
      SelectionMarks(t, q, input.power, input.ratio, machine);
      MarkedTrans(s, q, UpdateMigration(t, q, input.power, input.ratio, machine));
    }
  }

  // ---- the whole cycle

  /** In r interrupt i is at home and settled; if that is not its home in s, r has a new write that sends it there. */
  ghost predicate Served(s: State, r: State, i: IrqId, already: bool) {
    && i in s.irq && i in r.irq && r.irq[i].home.Some? && !r.irq[i].moved
    && (r.irq[i].home != s.irq[i].home && !already ==> WrittenTo(s, r, Write(i, r.irq[i].home.value)))
  }

  /** Placement leaves a balanced interrupt of the database without a home only if no node can receive any. */
  lemma PlacedHome(t: Topo, s: State, i: IrqId)
    requires Basic(t, s) && Placed(t, s) && Layered(t) && !NoOpenNode(t) && i in s.db && i in s.irq && s.irq[i].level != NoBalance
    ensures
      var q := CalculatePlacement(t, s);
      i in q.irq && q.irq[i].home.Some?
  {
    hide Kept, Shaped, Placed, Layered, CalculatePlacement, NoOpenNode, NodeChoice, EndsAtNode;
    PlacementAdvances(t, s);
    if s.irq[i].home.None? {
      ExactlyWaits(s, i);
      PlacementEnds(t, s, i);
    }
  }

  lemma ExactlyWaits(s: State, i: IrqId)
    requires Owned(s) && i in s.db && i in s.irq && s.irq[i].level != NoBalance && s.irq[i].home == None
    ensures i in s.rebalance
  {
    hide NoRepeat, NoDup;
    assert FoundAt(s, i, None);
  }

  /**
   After any cycle that does not rebuild the tree, on any tree with a node that can receive interrupts: every balanced
   interrupt of the database for which the kernel has no objection is at home and settled, and was written there unless
   it had this home before or the affinity was set already.
   */
  lemma CycleServes(d: Daemon, input: Input, machine: bool, i: IrqId)
    requires Safe(d) && !Rescans(d, input) && Layered(d.t) && !NoOpenNode(d.t)
    requires
      var s, k := Observe(d, input).state, AnswersFor(input.kernel, i);
      i in s.db && i in s.irq && s.irq[i].level != NoBalance && (k.already || k.first == Done)
    ensures Served(Observe(d, input).state, Cycle(d, input, machine).s, i, AnswersFor(input.kernel, i).already)
  {
    hide Owned, Shaped, Kept, Observe, Selected, Rescan, CalculatePlacement, ActivateAll, Placed, Layered, NoOpenNode, Frozen, Turned, Marked, Cleared;
    var s := Observe(d, input).state;
    var s1 := Selected(d.t, d.cycle, s, input, machine);
    SelectedMarks(d.t, d.cycle, s, input, machine);
    KeptPlaced(d.t, s, s1);
    KeptDb(d.t, s, s1);
    MarkedLevel(s, s1, i);
    PlacedHome(d.t, s1, i);
    var q := CalculatePlacement(d.t, s1);
    PlacementAdvances(d.t, s1);
    MarkedTrans(s, s1, q);
    KeptMeans(d.t, s1, q);
    KeptDb(d.t, s1, q);
    OwnedLinked(q);
    ActivateAllKept(d.t, q, |q.db|, input.kernel);
    ActivationWrites(d.t, q, input.kernel, i);
    SettledWrites(d.t, s, s1, q);
    TurnedServes(s, q, ActivateAll(d.t, q, |q.db|, input.kernel), i, AnswersFor(input.kernel, i));
  }

  lemma KeptDb(t: Topo, s: State, r: State)
    requires Kept(t, s, r)
    ensures r.db == s.db && s.writes <= r.writes
  {
    hide Basic, Placed;
  }

  lemma MarkedLevel(s: State, r: State, i: IrqId)
    requires Marked(s, r) && i in s.irq
    ensures i in r.irq && r.irq[i].level == s.irq[i].level
  {
  }

  lemma SettledWrites(t: Topo, s: State, s1: State, q: State)
    requires Kept(t, s, s1) && Kept(t, s1, q)
    ensures s.writes <= q.writes
  {
    hide Basic, Placed;
  }

  lemma TurnedServes(s: State, q: State, r: State, i: IrqId, k: Kernel)
    requires Marked(s, q) && i in s.irq && i in q.irq && q.irq[i].home.Some? && s.writes <= q.writes
    requires Turned(q, r, i, k) && (k.already || k.first == Done)
    ensures Served(s, r, i, k.already)
  {
    hide NotWritten;
    if Due(q, i, k) {
      var n :| |q.writes| <= n < |r.writes| && r.writes[n] == Write(i, q.irq[i].home.value);
      assert |s.writes| <= n;
    }
  }

  /** The same at the end of every run from start-up. */
  lemma RunServes(m: Machine, lines: File, rd: Reading, inputs: seq<Input>, input: Input, machine: bool, i: IrqId)
    requires
      var d := Run(Start(m, lines, rd), inputs, machine);
      !Rescans(d, input) && !NoOpenNode(d.t)
    requires
      var s, k := Observe(Run(Start(m, lines, rd), inputs, machine), input).state, AnswersFor(input.kernel, i);
      i in s.db && i in s.irq && s.irq[i].level != NoBalance && (k.already || k.first == Done)
    ensures
      var d := Run(Start(m, lines, rd), inputs, machine);
      Served(Observe(d, input).state, Cycle(d, input, machine).s, i, AnswersFor(input.kernel, i).already)
  {
    hide Safe, Start, Layered, Observe, Cycle, Run, NoOpenNode, Served;
    RunLayered(m, lines, rd, inputs, machine);
    CycleServes(Run(Start(m, lines, rd), inputs, machine), input, machine, i);
  }
}
