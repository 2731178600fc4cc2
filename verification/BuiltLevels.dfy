/** What the built tree is for placement and for the shares: always layered, and four plain levels when no package is split. */
module BuiltLevels {
  import opened Topology
  import opened CpuTree
  import opened TreeProof
  import opened TreeShape
  import opened Levels
  import opened Shares

  // ---- every built tree is layered

  lemma ChildKinds(r: Tree, cfg: Config, o: ObjId, x: ObjId)
    requires Exists(r, o) && o in ToTopo(r, cfg).at && x in ToTopo(r, cfg).at[o].children
    ensures MayHold(KindOf(o), KindOf(x))
  {
    hide ToTopo;
    ChildrenOf(r, cfg, o, x);
  }

  lemma GroupsHold(tr: Tree, cfg: Config, seen: seq<Seen>)
    requires Traced(tr, cfg, seen)
    ensures forall c :: 0 <= c < |tr.caches| ==> tr.caches[c].children != []
    ensures forall p :: 0 <= p < |tr.packages| ==> tr.packages[p].children != []
  {
    hide Parents, Refs, Hung, Grouped, CpuLinks;
    forall c | 0 <= c < |tr.caches|
      ensures tr.caches[c].children != []
    {
      var k := ItemOf(tr.caches, CacheItems(seen), c);
    }
    forall p | 0 <= p < |tr.packages|
      ensures tr.packages[p].children != []
    {
      var k := ItemOf(tr.packages, PackageItems(tr, seen), p);
    }
  }

  lemma InnerHolds(r: Tree, tr: Tree, cfg: Config, seen: seq<Seen>, o: ObjId)
    requires Finished(r, tr, cfg, seen) && Exists(r, o) && (KindOf(o) == Package || KindOf(o) == Cache)
    ensures o in ToTopo(r, cfg).at && ToTopo(r, cfg).at[o].children != []
  {
    hide ToTopo, Grouped, CpuLinks, Hung, Parents, NoDup, Refs, NodesAfter, Ids, RefIds;
    TopoAt(r, cfg, o);
    GroupsHold(tr, cfg, seen);
    SameCounts(r, tr);
    if KindOf(o) == Cache {
      var k := r.caches[o / 4].children[0];
      IdsHas(r.caches[o / 4].children, 0, 4 * k);
    } else {
      assert r.packages[o / 4].children == tr.packages[o / 4].children;
      var c := r.packages[o / 4].children[0];
      IdsHas(r.packages[o / 4].children, 1, 4 * c + 1);
    }
  }

  /** Whatever the reports, the built tree is layered. */
  lemma FinishedLayered(r: Tree, tr: Tree, cfg: Config, seen: seq<Seen>)
    requires Finished(r, tr, cfg, seen)
    ensures Layered(ToTopo(r, cfg))
  {
    hide ToTopo, Finished, Shaped, Exists;
    FinishedShaped(r, tr, cfg, seen);
    var t := ToTopo(r, cfg);
    forall o, c | o in t.at && c in t.at[o].children
      ensures c in t.at && MayHold(t.at[o].kind, t.at[c].kind)
    {
      TopoAt(r, cfg, o);
      ChildBelow(r, tr, cfg, seen, o, c);
      TopoAt(r, cfg, c);
      ChildKinds(r, cfg, o, c);
    }
    forall o | o in t.at && (t.at[o].kind == Package || t.at[o].kind == Cache)
      ensures t.at[o].children != []
    {
      TopoAt(r, cfg, o);
      InnerHolds(r, tr, cfg, seen, o);
    }
  }

  lemma BuildLayered(cfg: Config, allCpus: set<nat>, found: seq<(nat, set<nat>)>, rs: seq<Report>)
    ensures Layered(ToTopo(Build(cfg, allCpus, found, rs), cfg))
  {
    hide Finished, Build, ToTopo, Layered;
    BuildFinished(cfg, allCpus, found, rs);
    var start := StartTree(cfg, allCpus, found);
    FinishedLayered(Build(cfg, allCpus, found, rs), AddCpus(start, cfg, rs), cfg, SeenAll(start, cfg, rs));
  }

  // ---- whole and split packages, seen from a node

  /** Every package of a CPU of node n is all on n. */
  ghost predicate WholeAt(tr: Tree, cfg: Config, rs: seq<Report>, n: nat) {
    forall a, b :: Together(tr, cfg, rs, a, b) && SeenOf(tr, cfg, a).node == Some(n) ==> SeenOf(tr, cfg, b).node == Some(n)
  }

  /** Every package of a CPU of node n has a CPU elsewhere too. */
  ghost predicate SplitAt(tr: Tree, cfg: Config, rs: seq<Report>, n: nat) {
    forall a :: Unbanned1(cfg, rs, a) && SeenOf(tr, cfg, a).node == Some(n) ==>
      exists b :: Together(tr, cfg, rs, a, b) && SeenOf(tr, cfg, b).node != Some(n)
  }

  ghost predicate Unbanned1(cfg: Config, rs: seq<Report>, a: Report) { a in rs && a.number !in cfg.banned }

  /** Two unbanned CPUs of one package. */
  ghost predicate Together(tr: Tree, cfg: Config, rs: seq<Report>, a: Report, b: Report) {
    Unbanned1(cfg, rs, a) && Unbanned1(cfg, rs, b) && SeenOf(tr, cfg, a).pm == SeenOf(tr, cfg, b).pm
  }

  /** Some unbanned CPU reports this node. */
  ghost predicate HasCpu(tr: Tree, cfg: Config, rs: seq<Report>, n: nat) {
    exists a :: Unbanned1(cfg, rs, a) && SeenOf(tr, cfg, a).node == Some(n)
  }

  ghost predicate SeenWhole(seen: seq<Seen>, n: nat) {
    forall j, k :: 0 <= j < |seen| && 0 <= k < |seen| && seen[j].pm == seen[k].pm && seen[j].node == Some(n) ==> seen[k].node == Some(n)
  }

  ghost predicate SeenSplit(seen: seq<Seen>, n: nat) {
    forall j :: 0 <= j < |seen| && seen[j].node == Some(n) ==>
      exists k :: 0 <= k < |seen| && seen[k].pm == seen[j].pm && seen[k].node != Some(n)
  }

  /** Every unbanned report is among the seen ones. */
  lemma {:induction false} ReportSeen(tr: Tree, cfg: Config, rs: seq<Report>, a: Report)
    requires Unbanned1(cfg, rs, a)
    ensures SeenOf(tr, cfg, a) in SeenAll(tr, cfg, rs)
    decreases |rs|
  {
    hide SeenOf;
    var init, r := rs[..|rs| - 1], rs[|rs| - 1];
    if a in init { ReportSeen(tr, cfg, init, a); }
  }

  lemma WholeSeen(tr: Tree, cfg: Config, rs: seq<Report>, n: nat)
    requires WholeAt(tr, cfg, rs, n)
    ensures SeenWhole(SeenAll(tr, cfg, rs), n)
  {
    hide SeenOf, SeenAll;
    SeenFrom(tr, cfg, rs);
    var seen := SeenAll(tr, cfg, rs);
    forall j, k | 0 <= j < |seen| && 0 <= k < |seen| && seen[j].pm == seen[k].pm && seen[j].node == Some(n)
      ensures seen[k].node == Some(n)
    {
      assert seen[j] in seen && seen[k] in seen;
      var a :| a in rs && a.number !in cfg.banned && seen[j] == SeenOf(tr, cfg, a);
      var b :| b in rs && b.number !in cfg.banned && seen[k] == SeenOf(tr, cfg, b);
      assert Together(tr, cfg, rs, a, b);
    }
  }

  lemma SplitSeen(tr: Tree, cfg: Config, rs: seq<Report>, n: nat)
    requires SplitAt(tr, cfg, rs, n)
    ensures SeenSplit(SeenAll(tr, cfg, rs), n)
  {
    hide SeenOf, SeenAll;
    SeenFrom(tr, cfg, rs);
    var seen := SeenAll(tr, cfg, rs);
    forall j | 0 <= j < |seen| && seen[j].node == Some(n)
      ensures exists k :: 0 <= k < |seen| && seen[k].pm == seen[j].pm && seen[k].node != Some(n)
    {
      assert seen[j] in seen;
      var a :| a in rs && a.number !in cfg.banned && seen[j] == SeenOf(tr, cfg, a);
      assert Unbanned1(cfg, rs, a);
      var b :| Together(tr, cfg, rs, a, b) && SeenOf(tr, cfg, b).node != Some(n);
      ReportSeen(tr, cfg, rs, b);
      var k :| 0 <= k < |seen| && seen[k] == SeenOf(tr, cfg, b);
    }
  }

  /** A node whose packages are whole has no cache for a child. */
  lemma NoCacheBelow(tr: Tree, cfg: Config, seen: seq<Seen>, n: nat, c: nat)
    requires Traced(tr, cfg, seen) && Consistent(seen) && SeenWhole(seen, n)
    ensures !Belongs(tr, n, CacheRef(c))
  {
    hide Parents, Refs, Hung, Grouped, NoDup;
    if Belongs(tr, n, CacheRef(c)) {
      var p: nat :| Split(tr, c, p);
      var j := PackageKid(tr, cfg, seen, p, c);
      CacheNode(tr, cfg, seen, j);
      var ns := tr.packages[p].nodes;
      GroupNoDup(tr.packages, PackageItems(tr, seen), p);
      OtherNode(ns, n);
      var x := if ns[0] == n then ns[1] else ns[0];
      assert x in ns;
      var k := NodeItem(tr.packages, PackageItems(tr, seen), p, x);
    }
  }

  lemma OtherNode(ns: seq<nat>, n: nat)
    requires NoDup(ns) && |ns| > 1
    ensures ns[0] != n || ns[1] != n
  {
  }

  /** A node whose packages are all split has no package for a child. */
  lemma NoPackageBelow(tr: Tree, cfg: Config, seen: seq<Seen>, n: nat, p: nat)
    requires Traced(tr, cfg, seen) && Consistent(seen) && SeenSplit(seen, n)
    ensures !Belongs(tr, n, PackageRef(p))
  {
    hide Parents, Refs, Hung, Grouped, NoDup, CpuLinks;
    if Belongs(tr, n, PackageRef(p)) {
      assert n in tr.packages[p].nodes;
      var j := NodeItem(tr.packages, PackageItems(tr, seen), p, n);
      assert seen[j].node == Some(n) && seen[j].pm == tr.packages[p].mask;
      var k :| 0 <= k < |seen| && seen[k].pm == seen[j].pm && seen[k].node != Some(n);
      var g := PackageFiled(tr, cfg, seen, k, p);
    }
  }

  lemma NodeKids(r: Tree, tr: Tree, cfg: Config, seen: seq<Seen>, n: nat)
    requires Sound(r, tr, cfg, seen) && n < |r.nodes| && NodeId(n) in ToTopo(r, cfg).at
    ensures SeenWhole(seen, n) ==> AllOf(ToTopo(r, cfg), NodeId(n), Package)
    ensures SeenSplit(seen, n) ==> AllOf(ToTopo(r, cfg), NodeId(n), Cache)
  {
    hide ToTopo, Finished, Consistent, Flat, SeenWhole, SeenSplit, Belongs, Shaped;
    var t := ToTopo(r, cfg);
    FinishedShaped(r, tr, cfg, seen);
    forall x | x in t.at[NodeId(n)].children
      ensures x in t.at && (SeenWhole(seen, n) ==> t.at[x].kind == Package) && (SeenSplit(seen, n) ==> t.at[x].kind == Cache)
    {
      ChildListed(r, tr, cfg, seen, NodeId(n), x);
      ChildBelow(r, tr, cfg, seen, NodeId(n), x);
      TopoAt(r, cfg, x);
      if SeenWhole(seen, n) && x % 4 == 1 { SoundNoCache(r, tr, cfg, seen, n, x / 4); }
      if SeenSplit(seen, n) && x % 4 == 2 { SoundNoPackage(r, tr, cfg, seen, n, x / 4); }
    }
  }

  lemma SoundNoCache(r: Tree, tr: Tree, cfg: Config, seen: seq<Seen>, n: nat, c: nat)
    requires Sound(r, tr, cfg, seen) && SeenWhole(seen, n)
    ensures !Belongs(tr, n, CacheRef(c))
  {
    hide Traced, Consistent, SeenWhole, Belongs, NodesAfter, PackagesAfter;
    NoCacheBelow(tr, cfg, seen, n, c);
  }

  lemma SoundNoPackage(r: Tree, tr: Tree, cfg: Config, seen: seq<Seen>, n: nat, p: nat)
    requires Sound(r, tr, cfg, seen) && SeenSplit(seen, n)
    ensures !Belongs(tr, n, PackageRef(p))
  {
    hide Traced, Consistent, SeenSplit, Belongs, NodesAfter, PackagesAfter;
    NoPackageBelow(tr, cfg, seen, n, p);
  }

  /** A node that some CPU reports has a child. */
  lemma NodeHolds(r: Tree, tr: Tree, cfg: Config, seen: seq<Seen>, n: nat, k: nat)
    requires Sound(r, tr, cfg, seen) && k < |seen| && seen[k].node == Some(n)
    ensures n < |r.nodes| && NodeId(n) in ToTopo(r, cfg).at && ToTopo(r, cfg).at[NodeId(n)].children != []
  {
    hide ToTopo, Grouped, Consistent, Flat, Refs, Hung, NodesAfter, PackagesAfter, NoDup, Parents;
    SameCounts(r, tr);
    TopoAt(r, cfg, NodeId(n));
    var x := ReportedChild(r, tr, cfg, seen, n, k);
    ChildListed(r, tr, cfg, seen, NodeId(n), x);
  }

  lemma ReportedChild(r: Tree, tr: Tree, cfg: Config, seen: seq<Seen>, n: nat, k: nat) returns (x: ObjId)
    requires Sound(r, tr, cfg, seen) && k < |seen| && seen[k].node == Some(n)
    ensures ListedBy(tr, NodeId(n), x)
  {
    hide Grouped, Flat, Refs, Hung, NodesAfter, PackagesAfter, NoDup, Consistent;
    var c := tr.cpus[k].parent;
    var p := tr.caches[c].parent.value;
    CacheNode(tr, cfg, seen, k);
    CachePackageNode(tr, cfg, seen, k, p);
    if |tr.packages[p].nodes| == 1 {
      x := PackageId(p);
    } else {
      assert Split(tr, c, p);
      x := CacheId(c);
    }
  }

  /** The cache of CPU k reports the node of CPU k, and only that one. */
  lemma CacheNode(tr: Tree, cfg: Config, seen: seq<Seen>, k: nat)
    requires Traced(tr, cfg, seen) && Consistent(seen) && k < |seen|
    ensures tr.cpus[k].parent < |tr.caches| && seen[k].node.Some?
    ensures tr.caches[tr.cpus[k].parent].nodes == [seen[k].node.value]
  {
    hide Parents, Refs, Hung, Grouped, NoDup;
    var c := tr.cpus[k].parent;
    OneNode(tr, cfg, seen, c);
    var n := tr.caches[c].nodes[0];
    assert n in tr.caches[c].nodes;
    var j := NodeItem(tr.caches, CacheItems(seen), c, n);
    assert seen[j].cm == seen[k].cm;
    assert tr.caches[c].nodes == [n];
  }

  /** So does its package, among others. */
  lemma CachePackageNode(tr: Tree, cfg: Config, seen: seq<Seen>, k: nat, p: nat)
    requires Traced(tr, cfg, seen) && Consistent(seen) && k < |seen| && p < |tr.packages|
    requires tr.cpus[k].parent in tr.packages[p].children
    ensures seen[k].node.Some? && seen[k].node.value in tr.packages[p].nodes
    ensures |tr.packages[p].nodes| == 1 ==> tr.packages[p].nodes == [seen[k].node.value]
  {
    hide Parents, Refs, Hung, Grouped, NoDup;
    var j := PackageKid(tr, cfg, seen, p, tr.cpus[k].parent);
    assert seen[j] == seen[k];
    var g := PackageFiled(tr, cfg, seen, k, p);
  }

  lemma PackageFiled(tr: Tree, cfg: Config, seen: seq<Seen>, k: nat, p: nat) returns (g: nat)
    requires Traced(tr, cfg, seen) && k < |seen| && p < |tr.packages| && seen[k].pm == tr.packages[p].mask
    ensures g == p && (seen[k].node.Some? ==> seen[k].node.value in tr.packages[p].nodes)
  {
    hide Parents, Refs, Hung, KidsFrom, NodesFrom, NoneEmpty, NoRepeats;
    var items := PackageItems(tr, seen);
    assert InSome(tr.packages, items[k]);
    g :| Filed(tr.packages, items[k], g);
    SameMask(tr.packages, g, p);
  }

  // ---- in terms of the reports

  lemma BuildSound(cfg: Config, allCpus: set<nat>, found: seq<(nat, set<nat>)>, rs: seq<Report>)
    requires ConsistentReports(StartTree(cfg, allCpus, found), cfg, rs)
    ensures
      var start := StartTree(cfg, allCpus, found);
      Sound(Build(cfg, allCpus, found, rs), AddCpus(start, cfg, rs), cfg, SeenAll(start, cfg, rs))
  {
    hide Finished, Consistent, Flat, Build, ConsistentReports;
    var start := StartTree(cfg, allCpus, found);
    BuildFinished(cfg, allCpus, found, rs);
    ReportsConsistent(start, cfg, rs);
    ReportsFlat(start, cfg, rs);
  }

  /**
   For every order of consistent reports: a node is without children only if no unbanned CPU reports it; its children
   are packages when the packages of its CPUs are whole, and caches when they are all split over nodes.
   */
  lemma BuildNode(cfg: Config, allCpus: set<nat>, found: seq<(nat, set<nat>)>, rs: seq<Report>, n: nat)
    requires ConsistentReports(StartTree(cfg, allCpus, found), cfg, rs) && n < |StartTree(cfg, allCpus, found).nodes|
    ensures
      var start := StartTree(cfg, allCpus, found);
      var t := ToTopo(Build(cfg, allCpus, found, rs), cfg);
      && NodeId(n) in t.at && t.at[NodeId(n)].kind == Node
      && (HasCpu(start, cfg, rs, n) ==> t.at[NodeId(n)].children != [])
      && (WholeAt(start, cfg, rs, n) ==> AllOf(t, NodeId(n), Package))
      && (SplitAt(start, cfg, rs, n) ==> AllOf(t, NodeId(n), Cache))
  {
    hide Finished, Consistent, Flat, Build, ToTopo, ConsistentReports, SeenOf, SeenAll, AllOf, WholeAt, SplitAt, SeenWhole, SeenSplit;
    var start := StartTree(cfg, allCpus, found);
    var tr, r, seen := AddCpus(start, cfg, rs), Build(cfg, allCpus, found, rs), SeenAll(start, cfg, rs);
    BuildSound(cfg, allCpus, found, rs);
    NodeCount(cfg, allCpus, found, rs);
    TopoAt(r, cfg, NodeId(n));
    NodeKids(r, tr, cfg, seen, n);
    if WholeAt(start, cfg, rs, n) { WholeSeen(start, cfg, rs, n); }
    if SplitAt(start, cfg, rs, n) { SplitSeen(start, cfg, rs, n); }
    if HasCpu(start, cfg, rs, n) {
      var a :| Unbanned1(cfg, rs, a) && SeenOf(start, cfg, a).node == Some(n);
      ReportSeen(start, cfg, rs, a);
      var k :| 0 <= k < |seen| && seen[k] == SeenOf(start, cfg, a);
      NodeHolds(r, tr, cfg, seen, n, k);
    }
  }

  lemma NodeCount(cfg: Config, allCpus: set<nat>, found: seq<(nat, set<nat>)>, rs: seq<Report>)
    ensures |Build(cfg, allCpus, found, rs).nodes| == |StartTree(cfg, allCpus, found).nodes|
  {
    hide Traced, AddCpus, ConnectAll, SeenAll, StartTree;
    var start := StartTree(cfg, allCpus, found);
    StartBare(cfg, allCpus, found);
    AddCpusTraced(start, cfg, rs);
  }

  /** Consistent reports with whole packages and a CPU for every open node give the plain four-level tree. */
  lemma BuildFourLevels(cfg: Config, allCpus: set<nat>, found: seq<(nat, set<nat>)>, rs: seq<Report>)
    requires ConsistentReports(StartTree(cfg, allCpus, found), cfg, rs)
    requires forall n :: 0 <= n < |StartTree(cfg, allCpus, found).nodes| ==> WholeAt(StartTree(cfg, allCpus, found), cfg, rs, n)
    requires
      var start := StartTree(cfg, allCpus, found);
      var t := ToTopo(Build(cfg, allCpus, found, rs), cfg);
      forall n :: 0 <= n < |start.nodes| && NodeId(n) in t.at && OpenNode(t, NodeId(n)) ==> HasCpu(start, cfg, rs, n)
    ensures FourLevels(ToTopo(Build(cfg, allCpus, found, rs), cfg))
  {
    hide Build, ToTopo, ConsistentReports, WholeAt, SplitAt, HasCpu, AllOf, OpenNode, Layered;
    var t := ToTopo(Build(cfg, allCpus, found, rs), cfg);
    BuildLayered(cfg, allCpus, found, rs);
    NodeCount(cfg, allCpus, found, rs);
    forall o | o in t.nodes && o in t.at
      ensures AllOf(t, o, Package) && (OpenNode(t, o) ==> t.at[o].children != [])
    {
      NodeList(Build(cfg, allCpus, found, rs), cfg, o);
      assert o == NodeId(o / 4);
      BuildNode(cfg, allCpus, found, rs, o / 4);
    }
  }

  // ---- parent links

  /** The parent link of a listed child, unless a node lists a cache. */
  lemma ListedParent(r: Tree, tr: Tree, cfg: Config, seen: seq<Seen>, o: ObjId, x: ObjId)
    requires Sound(r, tr, cfg, seen) && Exists(r, x) && ListedBy(tr, o, x)
    ensures KindOf(o) == Node && KindOf(x) == Cache ==> PlaceOf(r, x).parent != Some(o)
    ensures !(KindOf(o) == Node && KindOf(x) == Cache) ==> PlaceOf(r, x).parent == Some(o)
  {
    hide Grouped, CpuLinks, Hung, Refs, NoDup, Ids, RefIds, NodesAfter, Consistent, Flat, Parents, PackagesAfter;
    SameCounts(r, tr);
    match KindOf(o)
    case Cpu =>
    case Cache =>
    case Package => CacheParentIs(tr, cfg, seen, x / 4, o / 4);
    case Node => if KindOf(x) == Package { PackageParentIs(r, tr, cfg, seen, x / 4, o / 4); }
  }

  lemma CacheParentIs(tr: Tree, cfg: Config, seen: seq<Seen>, c: nat, p: nat)
    requires Traced(tr, cfg, seen) && Consistent(seen) && c < |tr.caches| && p < |tr.packages| && c in tr.packages[p].children
    ensures tr.caches[c].parent == Some(p)
  {
    hide Grouped, CpuLinks, Hung, Refs, NoDup, Consistent;
    OnePackage(tr, cfg, seen, c, p, tr.caches[c].parent.value);
  }

  lemma PackageParentIs(r: Tree, tr: Tree, cfg: Config, seen: seq<Seen>, p: nat, n: nat)
    requires Sound(r, tr, cfg, seen) && p < |tr.packages| && tr.packages[p].nodes == [n]
    ensures r.packages[p].parent == Some(n)
  {
    hide Grouped, CpuLinks, Refs, NoDup, Consistent, Flat, NodesAfter;
    if tr.packages[p].parent.Some? {
      var m := tr.packages[p].parent.value;
      assert PackageRef(p) in tr.nodes[m].children;
      assert HangsRight(tr, cfg, m, PackageRef(p));
    }
  }

  /** Children and parent links agree below a node exactly when its children are packages. */
  lemma NodeAgrees(r: Tree, tr: Tree, cfg: Config, seen: seq<Seen>, n: ObjId)
    requires Sound(r, tr, cfg, seen) && Exists(r, n) && KindOf(n) == Node && n in ToTopo(r, cfg).at
    ensures ParentsAgree(ToTopo(r, cfg), n) <==> AllOf(ToTopo(r, cfg), n, Package)
  {
    hide ToTopo, Finished, Consistent, Flat, Shaped, Desc, ListedBy, Exists, PlaceOf;
    var t := ToTopo(r, cfg);
    FinishedShaped(r, tr, cfg, seen);
    DescStart(t, n);
    if AllOf(t, n, Package) {
      forall o, c | o in Desc(t, n) && o in t.at && c in t.at[o].children
        ensures c in t.at && t.at[c].parent == Some(o)
      {
        LinkAt(r, tr, cfg, seen, o, c);
        TopoAt(r, cfg, o);
        if KindOf(o) == Node { OnlyTop(t, n, o); }
      }
    }
    if ParentsAgree(t, n) {
      forall c | c in t.at[n].children
        ensures c in t.at && t.at[c].kind == Package
      {
        LinkAt(r, tr, cfg, seen, n, c);
        ChildKinds(r, cfg, n, c);
      }
    }
  }

  lemma LinkAt(r: Tree, tr: Tree, cfg: Config, seen: seq<Seen>, o: ObjId, c: ObjId)
    requires Sound(r, tr, cfg, seen) && o in ToTopo(r, cfg).at && c in ToTopo(r, cfg).at[o].children
    ensures c in ToTopo(r, cfg).at && ToTopo(r, cfg).at[c].kind == KindOf(c) && Exists(r, o)
    ensures ToTopo(r, cfg).at[c].parent == Some(o) <==> !(KindOf(o) == Node && KindOf(c) == Cache)
  {
    hide ToTopo, Finished, Consistent, Flat, ListedBy, Exists, PlaceOf;
    TopoAt(r, cfg, o);
    ChildBelow(r, tr, cfg, seen, o, c);
    TopoAt(r, cfg, c);
    ChildListed(r, tr, cfg, seen, o, c);
    ListedParent(r, tr, cfg, seen, o, c);
  }

  /** The only node below a node is itself. */
  lemma OnlyTop(t: Topo, n: ObjId, o: ObjId)
    requires Shaped(t) && n in t.at && o in Desc(t, n) && o in t.at && t.at[o].kind == Node
    ensures o == n
  {
    hide Desc, NoDup;
    if o != n {
      var y := DescParent(t, n, o);
      assert false;
    }
  }

  /** So the bounds on shares hold at every node with whole packages, whatever other nodes look like. */
  lemma BuildAgrees(cfg: Config, allCpus: set<nat>, found: seq<(nat, set<nat>)>, rs: seq<Report>, n: nat)
    requires ConsistentReports(StartTree(cfg, allCpus, found), cfg, rs) && n < |StartTree(cfg, allCpus, found).nodes|
    requires WholeAt(StartTree(cfg, allCpus, found), cfg, rs, n)
    ensures
      var t := ToTopo(Build(cfg, allCpus, found, rs), cfg);
      ParentsAgree(t, NodeId(n)) && t.at[NodeId(n)].parent == None
  {
    hide Build, ToTopo, ConsistentReports, WholeAt, SplitAt, AllOf, Finished, Consistent, Flat, ParentsAgree;
    var start := StartTree(cfg, allCpus, found);
    var tr, r, seen := AddCpus(start, cfg, rs), Build(cfg, allCpus, found, rs), SeenAll(start, cfg, rs);
    BuildSound(cfg, allCpus, found, rs);
    NodeCount(cfg, allCpus, found, rs);
    BuildNode(cfg, allCpus, found, rs, n);
    TopoAt(r, cfg, NodeId(n));
    NodeAgrees(r, tr, cfg, seen, NodeId(n));
  }
}
