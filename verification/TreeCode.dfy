/** cputree.c and numa.c as methods: the object lists that grow while CPUs are reported. */
module TreeCode {
  import opened Topology
  import opened CpuTree
  import opened PlacementCode

  /** The search for a cache domain or package with this mask. */
  method FindGroup(gs: seq<Group>, mask: set<nat>) returns (k: nat)
    ensures k == FindMask(gs, mask)
  {
    k := 0;
    while k < |gs| && gs[k].mask != mask
      invariant k <= |gs| && forall j :: 0 <= j < k ==> gs[j].mask != mask
      decreases |gs| - k
    {
      k := k + 1;
    }
    FirstMask(gs, mask, k);
  }

  lemma FirstMask(gs: seq<Group>, mask: set<nat>, k: nat)
    requires k <= |gs| && (k < |gs| ==> gs[k].mask == mask) && forall j :: 0 <= j < k ==> gs[j].mask != mask
    ensures k == FindMask(gs, mask)
  {
  }

  /** get_numa_node */
  method GetNumaNode(nodes: seq<NodeRec>, avail: bool, id: int) returns (r: Option<nat>)
    ensures r == NodeOf(nodes, avail, id)
  {
    var wanted := if avail then id else NUMA_NO_NODE;
    var k := 0;
    while k < |nodes|
      invariant k <= |nodes| && NodeFrom(nodes, wanted, 0) == NodeFrom(nodes, wanted, k)
    {
      if nodes[k].number == wanted { return Some(k); }
      k := k + 1;
    }
    r := None;
  }

  class TreeBuilder {
    var nodes: seq<NodeRec>
    var packages: seq<Group>
    var caches: seq<Group>
    var cpus: seq<CpuRec>

    function Built(): Tree
      reads this
    {
      Tree(nodes, packages, caches, cpus)
    }

    /** build_numa_node_list */
    constructor (cfg: Config, allCpus: set<nat>, found: seq<(nat, set<nat>)>)
      ensures Built() == StartTree(cfg, allCpus, found)
    {
      packages, caches, cpus := [], [], [];
      var list := [NodeRec(NUMA_NO_NODE, allCpus, [])];
      if cfg.numaAvail {
        for k := 0 to |found|
          invariant list == [NodeRec(NUMA_NO_NODE, allCpus, [])] + FoundNodes(found[..k])
        {
          Prefix(found, k);
          list := list + [NodeRec(found[k].0, found[k].1, [])];
        }
        Whole(found);
      }
      nodes := list;
    }

    /** The node add_numa_node_to_topo_obj would record. */
    method NodeToRecord(cfg: Config, id: int) returns (n: Option<nat>)
      ensures n == KnownNode(Built(), cfg, id)
    {
      if cfg.numaAvail && id <= NUMA_NO_NODE { return None; }
      n := GetNumaNode(nodes, cfg.numaAvail, id);
      if n.Some? && cfg.numaAvail && nodes[n.value].number == NUMA_NO_NODE { n := None; }
    }

    /** add_cpu_to_cache_domain for the CPU at position k. */
    method AddCpuToCacheDomain(mask: set<nat>, k: nat, n: Option<nat>) returns (c: nat)
      modifies this`caches
      ensures c == FindMask(old(caches), mask)
      ensures caches == JoinCache(WithGroup(old(caches), c, mask, |old(caches)|), c, k, n)
    {
      c := FindGroup(caches, mask);
      if c == |caches| { caches := caches + [Group(mask, |caches|, [], [], None)]; }
      var g := caches[c];
      if k !in g.children { g := g.(children := g.children + [k]); }
      if n.Some? && n.value !in g.nodes { g := g.(nodes := g.nodes + [n.value]); }
      caches := caches[c := g];
    }

    /** add_cache_domain_to_package */
    method AddCacheDomainToPackage(c: nat, id: int, mask: set<nat>, n: Option<nat>, numaAvail: bool)
      requires c < |caches| && (n.Some? ==> n.value < |nodes|)
      modifies this`caches, this`packages, this`nodes
      ensures Built() == PackageJoined(old(Built()), c, id, mask, n, numaAvail)
    {
      hide FindMask;
      var p := FindGroup(packages, mask);
      if p == |packages| { packages := packages + [Group(mask, id, [], [], None)]; }
      var g := packages[p];
      if c !in g.children {
        g := g.(children := g.children + [c]);
        caches := caches[c := caches[c].(parent := Some(p))];
      }
      if n.Some? {
        if n.value !in g.nodes { g := g.(nodes := g.nodes + [n.value]); }
        if !numaAvail && PackageRef(p) !in nodes[n.value].children {
          nodes := nodes[n.value := nodes[n.value].(children := nodes[n.value].children + [PackageRef(p)])];
          g := g.(parent := n);
        }
      }
      packages := packages[p := g];
    }

    /** The tree part of do_one_cpu. */
    method DoOneCpu(cfg: Config, r: Report)
      modifies this
      ensures Built() == AddCpu(old(Built()), cfg, r)
    {
      hide FindMask, NodeFrom, JoinCache, JoinPackage, WithGroup;
      if r.number in cfg.banned { return; }
      var pm := r.packageMask;
      if cfg.numaAvail {
        var node := GetNumaNode(nodes, true, r.nodeId);
        if node.Some? && |pm| > |nodes[node.value].mask| { pm := pm * nodes[node.value].mask; }
      }
      pm := pm - cfg.banned;
      var n := NodeToRecord(cfg, r.nodeId);
      var c := AddCpuToCacheDomain(r.cacheMask - cfg.banned, |cpus|, n);
      CacheThere(old(caches), c, r.cacheMask - cfg.banned, |cpus|, n);
      AddCacheDomainToPackage(c, r.packageId, pm, n, cfg.numaAvail);
      cpus := cpus + [CpuRec(r.number, c)];
    }

    /** connect_cpu_mem_topo on a cache. */
    method ConnectCacheNow(c: nat)
      modifies this`nodes
      ensures Built() == ConnectCache(old(Built()), c)
    {
      if c < |caches| && |caches[c].nodes| == 1 { HangBelow(caches[c].nodes[0], CacheRef(c)); }
    }

    method HangBelow(n: nat, x: Ref)
      modifies this`nodes
      ensures nodes == Hang(old(nodes), n, x)
    {
      if n < |nodes| && x !in nodes[n].children {
        nodes := nodes[n := nodes[n].(children := nodes[n].children + [x])];
      }
    }

    /** connect_cpu_mem_topo on a package. */
    method ConnectPackageNow(p: nat)
      requires p < |packages|
      modifies this`nodes, this`packages
      ensures Built() == ConnectPackage(old(Built()), p)
    {
      hide Hang;
      var g := packages[p];
      if |g.nodes| == 0 { return; }
      if |g.nodes| > 1 {
        ghost var tr := Built();
        for k := 0 to |g.children|
          invariant Built() == ConnectCaches(tr, g.children[..k])
        {
          Prefix(g.children, k);
          ConnectCacheNow(g.children[k]);
        }
        Whole(g.children);
        return;
      }
      if g.parent.None? { packages := packages[p := g.(parent := Some(g.nodes[0]))]; }
      HangBelow(g.nodes[0], PackageRef(p));
      assert packages == old(packages)[p := g.(parent := if g.parent.None? then Some(g.nodes[0]) else g.parent)];
    }

    /** parse_cpu_tree: every CPU, then the links to the nodes. */
    method ParseCpuTree(cfg: Config, rs: seq<Report>)
      modifies this
      ensures
        var tr := AddCpus(old(Built()), cfg, rs);
        Built() == ConnectAll(tr, |tr.packages|)
    {
      hide AddCpu, ConnectPackage;
      ghost var start := Built();
      for k := 0 to |rs|
        invariant Built() == AddCpus(start, cfg, rs[..k])
      {
        Prefix(rs, k);
        DoOneCpu(cfg, rs[k]);
      }
      Whole(rs);
      ghost var tr := Built();
      for p := 0 to |packages|
        invariant Built() == ConnectAll(tr, p) && |packages| == |tr.packages|
      {
        ConnectPackageNow(p);
      }
    }
  }

  lemma CacheThere(gs: seq<Group>, c: nat, mask: set<nat>, k: nat, n: Option<nat>)
    requires c == FindMask(gs, mask)
    ensures c < |WithGroup(gs, c, mask, |gs|)| && c < |JoinCache(WithGroup(gs, c, mask, |gs|), c, k, n)|
  {
  }

  /** build_object_tree, the tree part. */
  method BuildTree(cfg: Config, allCpus: set<nat>, found: seq<(nat, set<nat>)>, rs: seq<Report>) returns (tree: Tree)
    ensures tree == Build(cfg, allCpus, found, rs)
  {
    hide AddCpus, ConnectAll;
    var builder := new TreeBuilder(cfg, allCpus, found);
    builder.ParseCpuTree(cfg, rs);
    tree := builder.Built();
  }
}
