/**
 Building the object tree from CPU reports (cputree.c, numa.c). Objects of each kind are kept in
 the order they are created and named by their position in that list.
 */
module CpuTree {
  import opened Topology

  /** A child of a NUMA node: a package, or a cache when its package spans several nodes. */
  datatype Ref = PackageRef(p: nat) | CacheRef(c: nat)

  datatype NodeRec = NodeRec(number: int, mask: set<nat>, children: seq<Ref>)

  /** A cache (children are CPUs, parent a package) or a package (children are caches, parent a node). */
  datatype Group = Group(mask: set<nat>, number: int, children: seq<nat>, nodes: seq<nat>, parent: Option<nat>)

  datatype CpuRec = CpuRec(number: nat, parent: nat)

  datatype Tree = Tree(nodes: seq<NodeRec>, packages: seq<Group>, caches: seq<Group>, cpus: seq<CpuRec>)

  /** What the system says about one online CPU. */
  datatype Report = Report(number: nat, packageMask: set<nat>, packageId: int, cacheMask: set<nat>, nodeId: int)

  /** Machine-wide settings: is NUMA available, which CPUs are banned. */
  datatype Config = Config(numaAvail: bool, banned: set<nat>)

  /** get_numa_node: the first node with this number; without NUMA, the unspecified node. */
  function NodeOf(nodes: seq<NodeRec>, avail: bool, id: int): (r: Option<nat>)
    ensures r.Some? ==> r.value < |nodes|
  {
    NodeFrom(nodes, if avail then id else NUMA_NO_NODE, 0)
  }

  function NodeFrom(nodes: seq<NodeRec>, id: int, k: nat): (r: Option<nat>)
    requires k <= |nodes|
    ensures r.Some? ==> k <= r.value < |nodes| && nodes[r.value].number == id && (forall j :: k <= j < r.value ==> nodes[j].number != id)
    ensures r.None? ==> forall j :: k <= j < |nodes| ==> nodes[j].number != id
    decreases |nodes| - k
  {
    if k == |nodes| then None else if nodes[k].number == id then Some(k) else NodeFrom(nodes, id, k + 1)
  }

  /** The node add_numa_node_to_topo_obj records for an id, if any. */
  function KnownNode(tr: Tree, cfg: Config, id: int): (r: Option<nat>)
    ensures r.Some? ==> r.value < |tr.nodes|
  {
    var n := NodeOf(tr.nodes, cfg.numaAvail, id);
    if cfg.numaAvail && id <= NUMA_NO_NODE then None
    else if n.None? || (cfg.numaAvail && tr.nodes[n.value].number == NUMA_NO_NODE) then None
    else n
  }

  function AddUnique<T(==)>(l: seq<T>, x: T): seq<T> { if x in l then l else l + [x] }

  function AddNode(l: seq<nat>, n: Option<nat>): seq<nat> {
    match n
    case None => l
    case Some(k) => AddUnique(l, k)
  }

  /** The first group with this mask, or the length of the list. */
  function FindMask(gs: seq<Group>, mask: set<nat>): (k: nat)
    ensures k <= |gs|
    ensures k < |gs| ==> gs[k].mask == mask
    ensures forall j :: 0 <= j < k ==> gs[j].mask != mask
  {
    if |gs| == 0 then 0
    else
      var k := FindMask(gs[..|gs| - 1], mask);
      if k < |gs| - 1 then k else if gs[|gs| - 1].mask == mask then |gs| - 1 else |gs|
  }

  function WithGroup(gs: seq<Group>, k: nat, mask: set<nat>, number: int): (r: seq<Group>)
    requires k == FindMask(gs, mask)
    ensures k < |r| && |gs| <= |r| <= |gs| + 1 && r[..|gs|] == gs && r[k].mask == mask
  {
    if k == |gs| then gs + [Group(mask, number, [], [], None)] else gs
  }

  function PackageMask(tr: Tree, cfg: Config, r: Report): set<nat> {
    var n := NodeOf(tr.nodes, cfg.numaAvail, r.nodeId);
    (if cfg.numaAvail && n.Some? && |r.packageMask| > |tr.nodes[n.value].mask|
     then r.packageMask * tr.nodes[n.value].mask else r.packageMask) - cfg.banned
  }

  /** add_cpu_to_cache_domain: CPU number k joins the cache with this mask. */
  function JoinCache(gs: seq<Group>, c: nat, k: nat, n: Option<nat>): (r: seq<Group>)
    requires c < |gs|
    ensures |r| == |gs|
  {
    gs[c := gs[c].(children := AddUnique(gs[c].children, k), nodes := AddNode(gs[c].nodes, n))]
  }

  /** add_cache_domain_to_package, the package's side. */
  function JoinPackage(gs: seq<Group>, p: nat, c: nat, n: Option<nat>, parent: Option<nat>): (r: seq<Group>)
    requires p < |gs|
    ensures |r| == |gs|
  {
    gs[p := gs[p].(children := AddUnique(gs[p].children, c), nodes := AddNode(gs[p].nodes, n),
                   parent := if parent.Some? then parent else gs[p].parent)]
  }

  /** add_cache_domain_to_package; without NUMA the package hangs below the unspecified node at once. */
  function PackageJoined(tr: Tree, c: nat, id: int, mask: set<nat>, n: Option<nat>, numaAvail: bool): Tree
    requires c < |tr.caches| && (n.Some? ==> n.value < |tr.nodes|)
  {
    var p := FindMask(tr.packages, mask);
    var packs := WithGroup(tr.packages, p, mask, id);
    var hang := !numaAvail && n.Some? && PackageRef(p) !in tr.nodes[n.value].children;
    Tree(if hang then tr.nodes[n.value := tr.nodes[n.value].(children := tr.nodes[n.value].children + [PackageRef(p)])] else tr.nodes,
         JoinPackage(packs, p, c, n, if hang then n else None),
         if c in packs[p].children then tr.caches else tr.caches[c := tr.caches[c].(parent := Some(p))],
         tr.cpus)
  }

  /** The tree part of do_one_cpu. */
  function AddCpu(tr: Tree, cfg: Config, r: Report): Tree {
    if r.number in cfg.banned then tr
    else
      var cm, pm := r.cacheMask - cfg.banned, PackageMask(tr, cfg, r);
      var n := KnownNode(tr, cfg, r.nodeId);
      var c := FindMask(tr.caches, cm);
      var caches := JoinCache(WithGroup(tr.caches, c, cm, |tr.caches|), c, |tr.cpus|, n);
      PackageJoined(tr.(caches := caches), c, r.packageId, pm, n, cfg.numaAvail).(cpus := tr.cpus + [CpuRec(r.number, c)])
  }

  function AddCpus(tr: Tree, cfg: Config, rs: seq<Report>): Tree {
    if |rs| == 0 then tr else AddCpu(AddCpus(tr, cfg, rs[..|rs| - 1]), cfg, rs[|rs| - 1])
  }

  /** The children part of connect_cpu_mem_topo. */
  function Hang(nodes: seq<NodeRec>, n: nat, x: Ref): (r: seq<NodeRec>)
    ensures |r| == |nodes|
  {
    if n < |nodes| then nodes[n := nodes[n].(children := AddUnique(nodes[n].children, x))] else nodes
  }

  /** connect_cpu_mem_topo on a cache: only one with a single node is connected. */
  function ConnectCache(tr: Tree, c: nat): Tree {
    if c < |tr.caches| && |tr.caches[c].nodes| == 1
    then tr.(nodes := Hang(tr.nodes, tr.caches[c].nodes[0], CacheRef(c))) else tr
  }

  function ConnectCaches(tr: Tree, cs: seq<nat>): (r: Tree)
    ensures r == tr.(nodes := r.nodes) && |r.nodes| == |tr.nodes|
  {
    if |cs| == 0 then tr else ConnectCache(ConnectCaches(tr, cs[..|cs| - 1]), cs[|cs| - 1])
  }

  /** connect_cpu_mem_topo on a package. */
  function ConnectPackage(tr: Tree, p: nat): Tree
    requires p < |tr.packages|
  {
    var g := tr.packages[p];
    if |g.nodes| == 0 then tr
    else if |g.nodes| > 1 then ConnectCaches(tr, g.children)
    else
      tr.(packages := tr.packages[p := g.(parent := if g.parent.None? then Some(g.nodes[0]) else g.parent)],
          nodes := Hang(tr.nodes, g.nodes[0], PackageRef(p)))
  }

  /** for_each_object(packages, connect_cpu_mem_topo), the first n packages. */
  function ConnectAll(tr: Tree, n: nat): (r: Tree)
    requires n <= |tr.packages|
    ensures |r.packages| == |tr.packages| && |r.nodes| == |tr.nodes|
  {
    if n == 0 then tr else ConnectPackage(ConnectAll(tr, n - 1), n - 1)
  }

  function FoundNodes(found: seq<(nat, set<nat>)>): seq<NodeRec> {
    if |found| == 0 then [] else FoundNodes(found[..|found| - 1]) + [NodeRec(found[|found| - 1].0, found[|found| - 1].1, [])]
  }

  /** build_numa_node_list: the unspecified node, then the nodes found. */
  function StartTree(cfg: Config, allCpus: set<nat>, found: seq<(nat, set<nat>)>): Tree {
    Tree([NodeRec(NUMA_NO_NODE, allCpus, [])] + (if cfg.numaAvail then FoundNodes(found) else []), [], [], [])
  }

  /** build_numa_node_list and parse_cpu_tree. */
  function Build(cfg: Config, allCpus: set<nat>, found: seq<(nat, set<nat>)>, rs: seq<Report>): Tree {
    var tr := AddCpus(StartTree(cfg, allCpus, found), cfg, rs);
    ConnectAll(tr, |tr.packages|)
  }
}
