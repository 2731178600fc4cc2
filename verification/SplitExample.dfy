/**
 A machine on which a package-level interrupt misses its level. CPUs 0 and 1 share a package, CPUs 2 and 3 another;
 the nodes are {0, 2} and {1, 3}. No node is smaller than a package, so no package is cut down to its node.
 */
module SplitExample {
  import opened Topology
  import opened Irqs
  import opened Invariant
  import opened Placement
  import opened Levels
  import opened CpuTree
  import opened TreeProof
  import opened TreeShape
  import opened BuiltLevels
  import opened Scan

  const Settings := Config(true, {})
  const Online: set<nat> := {0, 1, 2, 3}
  const NodesFound: seq<(nat, set<nat>)> := [(0, {0, 2}), (1, {1, 3})]
  const First := Report(0, {0, 1}, 0, {0}, 0)
  const Second := Report(1, {0, 1}, 0, {1}, 1)
  const Third := Report(2, {2, 3}, 1, {2}, 0)
  const Fourth := Report(3, {2, 3}, 1, {3}, 1)
  const Reports := [First, Second, Third, Fourth]
  const Example := Machine(Settings, Online, NodesFound, Reports, [(1, NewIrq(false, PackageLevel, 0, NodeId(1)))])

  ghost function Begin(): Tree { StartTree(Settings, Online, NodesFound) }

  lemma BeginNodes()
    ensures Begin().nodes == [NodeRec(NUMA_NO_NODE, {0, 1, 2, 3}, []), NodeRec(0, {0, 2}, []), NodeRec(1, {1, 3}, [])]
  {
    assert NodesFound[..1] == [(0, {0, 2})] && NodesFound[..1][..0] == [];
    assert FoundNodes(NodesFound[..1]) == FoundNodes([]) + [NodeRec(0, {0, 2}, [])];
  }

  lemma NodeNumbers()
    ensures NodeOf(Begin().nodes, true, 0) == Some(1) && NodeOf(Begin().nodes, true, 1) == Some(2)
  {
    hide FoundNodes;
    BeginNodes();
    var ns := Begin().nodes;
    assert NodeFrom(ns, 0, 0) == NodeFrom(ns, 0, 1);
    assert NodeFrom(ns, 1, 0) == NodeFrom(ns, 1, 1) == NodeFrom(ns, 1, 2);
  }

  /** What the two CPUs report once masks and nodes are looked up. */
  lemma ReportsSeen()
    ensures SeenOf(Begin(), Settings, First) == Seen({0}, {0, 1}, Some(1))
    ensures SeenOf(Begin(), Settings, Second) == Seen({1}, {0, 1}, Some(2))
    ensures SeenOf(Begin(), Settings, Third) == Seen({2}, {2, 3}, Some(1))
    ensures SeenOf(Begin(), Settings, Fourth) == Seen({3}, {2, 3}, Some(2))
  {
    hide NodeFrom, FoundNodes;
    BeginNodes();
    NodeNumbers();
    var a, b, p, q: set<nat> := {0, 2}, {1, 3}, {0, 1}, {2, 3};
    assert |a| == 2 && |b| == 2 && |p| == 2 && |q| == 2;
    assert First.cacheMask - {} == {0} && Second.cacheMask - {} == {1} && p - {} == p;
    assert Third.cacheMask - {} == {2} && Fourth.cacheMask - {} == {3} && q - {} == q;
  }

  lemma Singletons()
    ensures forall a: nat, b: nat :: {a} == {b} ==> a == b
  {
    forall a: nat, b: nat | {a} == {b}
      ensures a == b
    {
      assert a in {b};
    }
  }

  lemma ReportFacts()
    ensures ConsistentReports(Begin(), Settings, Reports)
    ensures SplitAt(Begin(), Settings, Reports, 1) && HasCpu(Begin(), Settings, Reports, 1)
  {
    hide SeenOf, StartTree;
    ReportsSeen();
    assert forall a :: a in Reports <==> a == First || a == Second || a == Third || a == Fourth;
    assert Unbanned1(Settings, Reports, First);
    Singletons();
    assert Together(Begin(), Settings, Reports, First, Second);
    assert Together(Begin(), Settings, Reports, Third, Fourth);
  }

  /** Number and mask of a node are those found. */
  lemma NodeAt(cfg: Config, allCpus: set<nat>, found: seq<(nat, set<nat>)>, rs: seq<Report>, n: nat)
    requires n < |StartTree(cfg, allCpus, found).nodes|
    ensures
      var t := ToTopo(Build(cfg, allCpus, found, rs), cfg);
      var rec := StartTree(cfg, allCpus, found).nodes[n];
      NodeId(n) in t.at && NodeId(n) in t.nodes && t.at[NodeId(n)].number == rec.number && t.at[NodeId(n)].mask == rec.mask
  {
    hide Traced, AddCpus, ConnectAll, SeenAll, StartTree, ToTopo, Attached;
    var start := StartTree(cfg, allCpus, found);
    StartBare(cfg, allCpus, found);
    AddCpusTraced(start, cfg, rs);
    var tr := AddCpus(start, cfg, rs);
    ConnectAllAfter(tr, |tr.packages|);
    var r := Build(cfg, allCpus, found, rs);
    TopoAt(r, cfg, NodeId(n));
    NodeList(r, cfg, NodeId(n));
  }

  /** The start state: one package-level interrupt waits, and its node can receive interrupts. */
  ghost function Waiting(): State {
    BuildShaped(Settings, Online, NodesFound, Reports);
    ClearSlots(TopoOf(Example), FreshState(Example, []))
  }

  lemma WaitingIrq()
    ensures Waiting().rebalance == [1] && 1 in Waiting().irq
    ensures Waiting().irq[1].level == PackageLevel && Waiting().irq[1].node == NodeId(1)
  {
    hide Build, ToTopo, StartTree, Shaped;
    var t := TopoOf(Example);
    BeginNodes();
    NodeAt(Settings, Online, NodesFound, Reports, 1);
    SomeNode(t, NodeId(1));
    var found := Example.irqs;
    assert found[..0] == [];
    var s := AddAll(t, NoIrqs(t, []), found);
    assert AddAll(t, NoIrqs(t, []), []) == NoIrqs(t, []);
    assert s.db == [1] && s.irq[1].level == PackageLevel && s.irq[1].home == None;
    assert Balanced(s, 0) == [] && Balanced(s, 1) == [1];
    assert FreshState(Example, []) == QueueAll(s, |s.db|);
  }

  lemma SomeNode(t: Topo, n: ObjId)
    requires n in t.nodes
    ensures |t.nodes| > 0
  {
  }

  /** After calculate_placement the interrupt has a home, on its preferred node, and the home is not a package. */
  lemma SplitMissesLevel()
    ensures
      var t, s := TopoOf(Example), Waiting();
      && Basic(t, s) && Placed(t, s) && 1 in s.rebalance && 1 in s.irq && s.irq[1].level == PackageLevel
      && var r := CalculatePlacement(t, s);
         && 1 in r.irq && r.irq[1].level == PackageLevel && r.irq[1].home.Some?
         && !AtLevel(t, r, 1)
         && exists c :: c in t.at && t.at[c].kind == Cache && EndsAtCache(t, r, 1, c)
  {
    hide CalculatePlacement, Build, ToTopo, StartTree, Shaped, Owned, Placed, Layered, AtLevel, EndsAtNode, EndsAtCache, AllOf, Desc, FreshState, ClearSlots;
    var t, s := TopoOf(Example), Waiting();
    BuildShaped(Settings, Online, NodesFound, Reports);
    BuildLayered(Settings, Online, NodesFound, Reports);
    ClearSlotsPlaced(t, FreshState(Example, []));
    WaitingIrq();
    BeginNodes();
    NodeAt(Settings, Online, NodesFound, Reports, 1);
    ReportFacts();
    BuildNode(Settings, Online, NodesFound, Reports, 1);
    Banned(Build(Settings, Online, NodesFound, Reports), Settings);
    assert 0 in {0, 2} - t.banned;
    PlacementEnds(t, s, 1);
    PlacementLevel(t, s, 1);
    var r := CalculatePlacement(t, s);
    SomeOpen(t, NodeId(1));
    var n :| NodeChoice(t, s, 1, n) && EndsAtNode(t, r, 1, n) && r.irq[1].home.value in Desc(t, n);
    LevelMetExactly(t, r, 1, n);
    NotPackages(t, n);
    var c :| WentBy(t, r, 1, n, c);
    ByCache(t, r, 1, n, c);
  }

  lemma Banned(r: Tree, cfg: Config)
    ensures ToTopo(r, cfg).banned == cfg.banned && ToTopo(r, cfg).numaAvail == cfg.numaAvail
  {
  }

  lemma ByCache(t: Topo, r: State, i: IrqId, n: ObjId, c: ObjId)
    requires n in t.at && AllOf(t, n, Cache) && WentBy(t, r, i, n, c)
    ensures c in t.at && t.at[c].kind == Cache && EndsAtCache(t, r, i, c)
  {
    hide EndsAtCache;
  }

  /** Children that are all caches are not all packages. */
  lemma NotPackages(t: Topo, n: ObjId)
    requires n in t.at && t.at[n].children != [] && AllOf(t, n, Cache)
    ensures !AllOf(t, n, Package)
  {
    assert t.at[n].children[0] in t.at[n].children;
  }
}
