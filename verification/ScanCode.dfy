/** irqbalance.c: one cycle and the rebuild as methods on the global state, proved equal to Cycle. */
module ScanCode {
  import opened Topology
  import opened Irqs
  import opened Invariant
  import opened Placement
  import opened Load
  import opened Stat
  import opened CpuTree
  import opened TreeShape
  import opened Interrupts
  import opened Scan
  import opened Balancer
  import opened PlacementCode
  import opened ActivateCode
  import opened SelectCode
  import opened TreeWalk
  import opened TreeCode

  // ---- clear_work_stats, clear_slots

  lemma ListsAreKnown(s: State)
    requires Owned(s)
    ensures ListsKnown(s)
  {
    hide NoDup;
    OwnedLists(s);
    RegisteredLists(s);
  }

  lemma IdleReach(t: Topo, s: State)
    requires Shaped(t)
    ensures IdleIn(s, Reach(t)) == ClearWork(t, s)
  {
    hide Shaped, Reach;
    forall i | i in s.irq
      ensures Touched(s, Reach(t), i) <==> OnReached(t, s, i) || (i in s.db && SomeEmpty(t, s))
    {
      if OnReached(t, s, i) {
        var o :| o in Reach(t) && o in s.obj && i in s.obj[o].irqs;
        assert i in Visited(s, o);
      } else if i in s.db && SomeEmpty(t, s) {
        var o :| o in Reach(t) && o in s.obj && s.obj[o].irqs == [];
        assert i in Visited(s, o);
      }
    }
    assert IdleIn(s, Reach(t)).irq == ClearWork(t, s).irq;
  }

  method ClearWorkStats(b: Balancer)
    requires Basic(b.t, b.Now())
    modifies b`irq
    ensures b.Now() == ClearWork(b.t, old(b.Now()))
  {
    hide Shaped, Owned, Desc, Below, IdleIn, Reach, ClearWork;
    ghost var s := b.Now();
    var nodes := b.t.nodes;
    BelowNone(b.t);
    BelowNodes(b.t);
    IdleTwice(s, {}, {});
    ListsAreKnown(s);
    for k := 0 to |nodes|
      invariant b.irq.Keys == s.irq.Keys && (forall o :: o in nodes[..k] ==> o in b.t.at)
      invariant b.Now() == IdleIn(s, Below(b.t, nodes[..k]))
    {
      BelowMore(b.t, nodes, k);
      ClearObjStats(b, nodes[k]);
      IdleTwice(s, Below(b.t, nodes[..k]), Desc(b.t, nodes[k]));
    }
    Whole(nodes);
    IdleReach(b.t, s);
  }

  lemma FreeReach(t: Topo, s: State)
    requires Shaped(t)
    ensures FreeIn(s, Reach(t)) == ClearSlots(t, s)
  {
    hide Shaped, Reach;
    assert FreeIn(s, Reach(t)).obj == ClearSlots(t, s).obj;
  }

  method ClearSlotsNow(b: Balancer)
    requires Shaped(b.t) && b.obj.Keys == b.t.at.Keys
    modifies b`obj
    ensures b.Now() == ClearSlots(b.t, old(b.Now()))
  {
    hide Shaped, Desc, Below, FreeIn, Reach, ClearSlots;
    ghost var s := b.Now();
    var nodes := b.t.nodes;
    BelowNone(b.t);
    BelowNodes(b.t);
    FreeTwice(s, {}, {});
    for k := 0 to |nodes|
      invariant b.obj.Keys == s.obj.Keys && (forall o :: o in nodes[..k] ==> o in b.t.at)
      invariant b.Now() == FreeIn(s, Below(b.t, nodes[..k]))
    {
      BelowMore(b.t, nodes, k);
      ClearObjSlots(b, nodes[k]);
      FreeTwice(s, Below(b.t, nodes[..k]), Desc(b.t, nodes[k]));
    }
    Whole(nodes);
    FreeReach(b.t, s);
  }

  // ---- parse_proc_stat

  /** The loads read for the CPUs. */
  method StoreReadings(b: Balancer, rd: Reading)
    requires forall o :: o in b.t.cpus ==> o in b.obj
    modifies b`obj
    ensures b.Now() == ReadCpus(b.t, old(b.Now()), rd)
  {
    ghost var s := b.Now();
    var list := b.t.cpus;
    for k := 0 to |list|
      invariant b.obj.Keys == s.obj.Keys
      invariant forall o :: o in s.obj ==>
        b.obj[o] == if o in list[..k] && o in rd.loads then s.obj[o].(load := rd.loads[o]) else s.obj[o]
    {
      assert list[..k + 1] == list[..k] + [list[k]];
      assert list[k] in list;
      if list[k] in rd.loads { b.obj := b.obj[list[k] := b.obj[list[k]].(load := rd.loads[list[k]])]; }
    }
    Whole(list);
    assert b.obj == ReadCpus(b.t, s, rd).obj;
  }

  /** for_each_object(.., compute_irq_branch_load_share) over CPUs, caches, packages and nodes. */
  method ComputeShares(b: Balancer)
    requires Basic(b.t, b.Now()) && forall d :: d in AllObjects(b.t) ==> d in b.t.at
    modifies b`irq
    ensures b.Now() == AttributeAll(b.t, old(b.Now()), AllObjects(b.t))
  {
    hide Owned, Shaped, Attribute, AllObjects;
    ghost var s := b.Now();
    var list := AllObjects(b.t);
    for k := 0 to |list|
      invariant Basic(b.t, b.Now()) && b.Now() == AttributeAll(b.t, s, list[..k])
    {
      Prefix(list, k);
      AttributeStep(b.t, b.Now(), list[k]);
      ComputeShare(b, list[k]);
    }
    Whole(list);
  }

  /** parse_proc_stat */
  method ParseProcStat(b: Balancer, rd: Reading)
    requires Basic(b.t, b.Now())
    modifies b`irq, b`obj
    ensures b.Now() == ReadStat(b.t, old(b.Now()), rd) && Basic(b.t, b.Now())
  {
    hide Owned, Shaped, Kept, ReadCpus, SetLoads, SetCounts, AttributeAll, Measured, Reach, AllObjects;
    TreeListsOf(b.t, b.Now());
    ReadCpusMeasured(b.t, b.Now(), rd);
    StoreReadings(b, rd);
    if !rd.complete { return; }
    SetLoadsMeasured(b.t, b.Now());
    SetAllLoads(b);
    SetCountsMeasured(b.t, b.Now());
    CountAll(b);
    ObjectsListed(b.t);
    ComputeShares(b);
  }

  // ---- parse_proc_interrupts

  /** proc_irq_hotplug for a number that is not known. */
  method PlugIfNew(b: Balancer, l: Line)
    requires |b.t.nodes| > 0
    modifies b`irq, b`db, b`banned, b`rebalance, b`obj
    ensures b.Now() == Plugged(b.t, old(b.Now()), l)
  {
    hide AddIrq, ForceRebalance;
    var known := b.KnowsIrq(l.irq);
    if !known {
      AddedHome(b.Now(), l.irq, KnownInfo(b.t, l.info));
      b.AddNewIrq(l.irq, KnownInfo(b.t, l.info));
      b.ForceRebalanceIrq(l.irq);
    }
  }

  /** One line: look up, hot-plug if new, mark, and take over the count. */
  method ReadLineNow(b: Balancer, l: Line) returns (bad: bool)
    requires Basic(b.t, b.Now())
    modifies b`irq, b`db, b`banned, b`rebalance, b`obj
    ensures
      var p := ReadLine(b.t, old(b.Now()), l);
      b.Now() == p.state && bad == p.bad && Basic(b.t, b.Now())
  {
    hide Basic, Listed, Plugged;
    PluggedListed(b.t, b.Now(), l);
    PlugIfNew(b, l);
    b.irq := b.irq[l.irq := b.irq[l.irq].(existing := true)];
    if !l.cpusOk { return true; }
    if l.count < b.irq[l.irq].count { return true; }
    var count := b.irq[l.irq].count;
    b.irq := b.irq[l.irq := b.irq[l.irq].(last := count)];
    b.irq := b.irq[l.irq := b.irq[l.irq].(count := l.count)];
    bad := false;
  }

  lemma AddedHome(s: State, i: IrqId, n: NewIrq)
    requires i !in s.db && i !in s.banned
    ensures HomeKnown(AddIrq(s, i, n), i)
  {
  }

  lemma {:induction false} ReadLinesStop(t: Topo, s: State, lines: seq<Line>, k: nat)
    requires Basic(t, s) && k <= |lines| && ReadLines(t, s, lines[..k]).bad
    ensures ReadLines(t, s, lines) == ReadLines(t, s, lines[..k])
    decreases |lines|
  {
    hide Basic, Listed, ReadLine;
    if k == |lines| {
      Whole(lines);
    } else {
      var init := lines[..|lines| - 1];
      assert init[..k] == lines[..k];
      ReadLinesStop(t, s, init, k);
    }
  }

  method RemoveVanished(b: Balancer, list: seq<IrqId>)
    requires Basic(b.t, b.Now()) && AllKnown(b.Now(), list) && NoDup(list)
    modifies b`irq, b`db, b`banned, b`rebalance, b`obj
    ensures b.Now() == RemoveAll(b.t, old(b.Now()), list) && Basic(b.t, b.Now())
  {
    hide Basic, Listed, RemoveIrq, Swept;
    ghost var s := b.Now();
    for k := 0 to |list|
      invariant Basic(b.t, b.Now()) && NoDup(list[..k]) && AllKnown(s, list[..k])
      invariant b.Now() == RemoveAll(b.t, s, list[..k])
    {
      Prefix(list, k);
      assert NoDup(list[..k + 1]) && AllKnown(s, list[..k + 1]);
      RemoveNext(b.t, s, b.Now(), list[..k + 1]);
      b.RemoveNoExistingIrq(list[k]);
    }
    Whole(list);
  }

  /** clear_no_existing_irqs */
  method ClearNoExistingIrqs(b: Balancer)
    requires Basic(b.t, b.Now())
    modifies b`irq, b`db, b`banned, b`rebalance, b`obj
    ensures b.Now() == ClearGone(b.t, old(b.Now())) && Basic(b.t, b.Now())
  {
    hide Owned, Fits, RemoveAll, Listed;
    RegisteredLists(b.Now());
    RemoveVanished(b, b.db);
    RegisteredLists(b.Now());
    RemoveVanished(b, b.banned);
  }

  lemma ReadStages(t: Topo, s: State, lines: seq<Line>, need: bool)
    requires Basic(t, s)
    ensures
      var p := ReadLines(t, s, lines);
      ReadInterrupts(t, s, Lines(lines), need) == if need || p.bad then Parsed(p.state, true) else Parsed(ClearGone(t, p.state), false)
  {
    hide Basic, ReadLines, ClearGone, Listed;
  }

  /** parse_proc_interrupts */
  method ParseProcInterrupts(b: Balancer, file: File)
    requires Basic(b.t, b.Now())
    modifies b`irq, b`db, b`banned, b`rebalance, b`obj, b`needRescan
    ensures
      var p := ReadInterrupts(b.t, old(b.Now()), file, old(b.needRescan));
      b.Now() == p.state && b.needRescan == p.bad && Basic(b.t, b.Now())
  {
    hide Basic, ReadLines, ClearGone, Listed;
    if file.Unreadable? { return; }
    ParseLines(b, file.lines);
  }

  method ParseLines(b: Balancer, lines: seq<Line>)
    requires Basic(b.t, b.Now())
    modifies b`irq, b`db, b`banned, b`rebalance, b`obj, b`needRescan
    ensures
      var p := ReadInterrupts(b.t, old(b.Now()), Lines(lines), old(b.needRescan));
      b.Now() == p.state && b.needRescan == p.bad && Basic(b.t, b.Now())
  {
    hide Basic, ReadLine, ClearGone, Listed;
    ghost var s := b.Now();
    var k, bad := 0, false;
    while k < |lines| && !bad
      invariant k <= |lines| && Basic(b.t, b.Now()) && b.needRescan == old(b.needRescan)
      invariant
        var p := ReadLines(b.t, s, lines[..k]);
        b.Now() == p.state && bad == p.bad
      decreases |lines| - k
    {
      Prefix(lines, k);
      bad := ReadLineNow(b, lines[k]);
      k := k + 1;
    }
    if bad {
      ReadLinesStop(b.t, s, lines, k);
      b.needRescan := true;
    } else {
      assert k == |lines|;
      Whole(lines);
    }
    assert b.Now() == ReadLines(b.t, s, lines).state && bad == ReadLines(b.t, s, lines).bad;
    ReadStages(b.t, s, lines, old(b.needRescan));
    if !b.needRescan { ClearNoExistingIrqs(b); }
  }

  // ---- rebuilding

  /** free_object_tree and build_object_tree, then queueing every balanced interrupt. */
  method RebuildTree(b: Balancer, m: Machine)
    modifies b`t, b`irq, b`db, b`banned, b`rebalance, b`obj
    ensures b.t == TopoOf(m) && b.Now() == FreshState(m, b.writes)
    ensures Basic(b.t, b.Now()) && Blank(b.Now())
  {
    hide Owned, Shaped, Build, AddIrq, ForceRebalance, ToTopo, Blank;
    var tree := BuildTree(m.cfg, m.cpus, m.nodes, m.reports);
    b.t := ToTopo(tree, m.cfg);
    BuildShaped(m.cfg, m.cpus, m.nodes, m.reports);
    SomeNodes(b.t);
    b.irq, b.db, b.banned, b.rebalance := map[], [], [], [];
    b.obj := map o | o in b.t.at :: Obj(0, 0, false, [], 0);
    FillDb(b, m.irqs);
    AddAllFills(b.t, b.writes, m.irqs);
    QueuedBasic(b.t, b.Now());
    QueueDb(b);
  }

  /** rebuild_irq_db */
  method FillDb(b: Balancer, found: seq<(IrqId, NewIrq)>)
    requires |b.t.nodes| > 0
    modifies b`irq, b`db, b`banned
    ensures b.Now() == AddAll(b.t, old(b.Now()), found)
  {
    hide AddIrq;
    ghost var s := b.Now();
    for k := 0 to |found|
      invariant b.Now() == AddAll(b.t, s, found[..k])
    {
      Prefix(found, k);
      b.AddNewIrq(found[k].0, KnownInfo(b.t, found[k].1));
    }
    Whole(found);
  }

  /** for_each_irq(NULL, force_rebalance_irq) */
  method QueueDb(b: Balancer)
    requires Homeless(b.Now())
    modifies b`irq, b`rebalance, b`obj
    ensures b.Now() == QueueAll(old(b.Now()), |old(b.db)|)
  {
    hide Balanced;
    ghost var s := b.Now();
    for n := 0 to |b.db|
      invariant b.Now() == QueueAll(s, n)
    {
      b.ForceRebalanceIrq(b.db[n]);
    }
  }

  // ---- scan

  ghost function View(b: Balancer): Daemon
    reads b
  {
    Daemon(b.t, b.Now(), b.cycle, b.needRescan)
  }

  lemma StartStages(m: Machine, lines: File, rd: Reading)
    ensures
      var t := TopoOf(m);
      var p := ReadInterrupts(t, FreshState(m, []), lines, false);
      var s := ReadStat(t, p.state, FirstReading(rd));
      Basic(t, s) && Shaped(t) && Start(m, lines, rd) == Daemon(t, ClearSlots(t, s), 0, p.bad)
  {
    hide Shaped, Owned, Kept, FreshState, ReadInterrupts, ReadStat, ClearSlots, TopoOf, Listed, Placed, Blank;
    var t := TopoOf(m);
    var p := ReadInterrupts(t, FreshState(m, []), lines, false);
    KeptMeans(t, p.state, ReadStat(t, p.state, FirstReading(rd)));
  }

  /** The part of main before the first cycle. */
  method StartDaemon(b: Balancer, m: Machine, lines: File, rd: Reading)
    modifies b
    ensures View(b) == Start(m, lines, rd)
  {
    hide *;
    StartStages(m, lines, rd);
    b.writes, b.cycle, b.needRescan := [], 0, false;
    RebuildTree(b, m);
    ViewIs(b);
    ParseProcInterrupts(b, lines);
    ParseProcStat(b, FirstReading(rd));
    BasicMeans(b.t, b.Now());
    ViewIs(b);
    ClearSlotsNow(b);
    ViewIs(b);
  }

  lemma ViewIs(b: Balancer)
    ensures View(b) == Daemon(b.t, b.Now(), b.cycle, b.needRescan)
    ensures b.Now() == State(b.irq, b.db, b.banned, b.rebalance, b.obj, b.writes)
  {
  }

  /** Cycle written out: the two ways a cycle can go. */
  lemma CycleStages(d: Daemon, input: Input)
    requires Safe(d)
    ensures Basic(d.t, d.s) && Shaped(d.t) && Basic(d.t, ClearWork(d.t, d.s))
    ensures
      var p := ReadInterrupts(d.t, ClearWork(d.t, d.s), input.lines, d.rescan || (input.hup && d.cycle > 0));
      Cycle(d, input, true) == if p.bad then Rescan(p.state.writes, input) else
        var s1 := Selected(d.t, d.cycle, p.state, input, true);
        Daemon(d.t, Settled(d.t, s1, input), d.cycle + 1, false)
  {
    hide Owned, Fits, Kept, ClearWork, ReadInterrupts, Selected, Settled, Rescan, Listed, Placed, Frozen, Cleared;
    ClearWorkKept(d.t, d.s);
    BasicMeans(d.t, d.s);
  }

  /** The rescan branch of scan. */
  method RescanNow(b: Balancer, input: Input)
    modifies b
    ensures View(b) == Rescan(old(b.writes), input)
  {
    hide *;
    RescanStages(b.writes, input);
    b.needRescan := false;
    b.cycle := 0;
    RebuildTree(b, input.machine);
    BasicMeans(b.t, b.Now());
    ViewIs(b);
    ClearSlotsNow(b);
    ParseProcInterrupts(b, input.again);
    ParseProcStat(b, FirstReading(input.rd));
    ViewIs(b);
  }

  lemma RescanStages(log: seq<Write>, input: Input)
    ensures
      var t := TopoOf(input.machine);
      var s := FreshState(input.machine, log);
      && Basic(t, s) && Shaped(t) && Basic(t, ClearSlots(t, s))
      && var p := ReadInterrupts(t, ClearSlots(t, s), input.again, false);
         Rescan(log, input) == Daemon(t, ReadStat(t, p.state, FirstReading(input.rd)), 0, p.bad)
  {
    hide Owned, Fits, Kept, ClearSlots, ReadInterrupts, FreshState, ReadStat, Listed, Placed, TopoOf, Blank;
    var t := TopoOf(input.machine);
    var s := FreshState(input.machine, log);
    ClearSlotsPlaced(t, s);
    BasicMeans(t, s);
  }

  /** Reading the loads and selecting. */
  method ReadAndSelect(b: Balancer, input: Input)
    requires Basic(b.t, b.Now())
    modifies b`irq, b`rebalance, b`obj
    ensures b.Now() == Selected(b.t, b.cycle, old(b.Now()), input, true)
    ensures Basic(b.t, b.Now())
  {
    hide Basic, Kept, ReadStat, Select.UpdateMigration;
    ParseProcStat(b, if b.cycle == 0 then FirstReading(input.rd) else input.rd);
    if b.cycle > 0 { UpdateMigrationStatus(b, input.power, input.ratio); }
  }

  /** Placing and activating. */
  method PlaceAndActivate(b: Balancer, input: Input)
    requires Basic(b.t, b.Now())
    modifies b`irq, b`rebalance, b`obj, b`writes
    ensures b.Now() == Settled(b.t, old(b.Now()), input)
    ensures Basic(b.t, b.Now())
  {
    hide Basic, Kept, CalculatePlacement, Activation.ActivateAll, Linked;
    CalculatePlacementNow(b);
    ActivateMappings(b, input.kernel);
  }

  /** scan */
  method ScanNow(b: Balancer, input: Input)
    requires Safe(View(b))
    modifies b
    ensures View(b) == Cycle(old(View(b)), input, true)
  {
    hide *;
    CycleStages(View(b), input);
    ViewIs(b);
    if input.hup && b.cycle > 0 { b.needRescan := true; }
    ViewIs(b);
    ClearWorkStats(b);
    ParseProcInterrupts(b, input.lines);
    ViewIs(b);
    if b.needRescan {
      RescanNow(b, input);
      return;
    }
    ReadAndSelect(b, input);
    ViewIs(b);
    PlaceAndActivate(b, input);
    ViewIs(b);
    b.cycle := b.cycle + 1;
    ViewIs(b);
  }

  /** Any number of cycles after start-up; wrap-around never shows. */
  method RunDaemon(b: Balancer, m: Machine, lines: File, rd: Reading, inputs: seq<Input>)
    modifies b
    ensures View(b) == Run(Start(m, lines, rd), inputs, true)
    ensures View(b) == Run(Start(m, lines, rd), inputs, false)
  {
    hide Safe, Start, Cycle, View;
    StartDaemon(b, m, lines, rd);
    ghost var d := View(b);
    for k := 0 to |inputs|
      invariant View(b) == Run(d, inputs[..k], true)
    {
      Prefix(inputs, k);
      ScanNow(b, inputs[k]);
    }
    Whole(inputs);
    RunNeverWraps(d, inputs);
  }
}
