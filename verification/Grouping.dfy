/** Where every report ends in the built tree, by the fields of the report. */
module Grouping {
  import opened Topology
  import opened CpuTree
  import opened TreeProof
  import opened TreeShape

  /** Node n is the first with the number asked for; without NUMA the unspecified one is asked for. */
  ghost predicate NodeFor(nodes: seq<NodeRec>, numa: bool, id: int, n: nat) {
    var want := if numa then id else -1;
    n < |nodes| && nodes[n].number == want && forall j :: 0 <= j < n ==> nodes[j].number != want
  }

  /** The CPU belongs to node n: a numbered one with NUMA, the unspecified one without. */
  ghost predicate Names(nodes: seq<NodeRec>, numa: bool, r: Report, n: nat) {
    NodeFor(nodes, numa, r.nodeId, n) && (numa ==> r.nodeId >= 0)
  }

  /** Does the reported package have more CPUs than the CPU's node? */
  ghost predicate Cut(nodes: seq<NodeRec>, numa: bool, r: Report, n: nat) {
    numa && NodeFor(nodes, numa, r.nodeId, n) && |r.packageMask| > |nodes[n].mask|
  }

  /** The package mask: the unbanned siblings, and where they are more than the node has, only those of the node. */
  ghost predicate MaskIs(nodes: seq<NodeRec>, cfg: Config, r: Report, mask: set<nat>) {
    forall x :: x in mask <==>
      x in r.packageMask && x !in cfg.banned && forall n: nat :: Cut(nodes, cfg.numaAvail, r, n) ==> x in nodes[n].mask
  }

  /** The report is CPU k of the tree, in cache c of package p. */
  ghost predicate FiledAs(tr: Tree, cfg: Config, r: Report, k: nat, c: nat, p: nat) {
    && k < |tr.cpus| && c < |tr.caches| && p < |tr.packages| && r.number !in cfg.banned
    && tr.cpus[k] == CpuRec(r.number, c) && k in tr.caches[c].children && c in tr.packages[p].children
    && (forall x :: x in tr.caches[c].mask <==> x in r.cacheMask && x !in cfg.banned)
    && MaskIs(tr.nodes, cfg, r, tr.packages[p].mask)
    && (forall n: nat :: Names(tr.nodes, cfg.numaAvail, r, n) ==> n in tr.caches[c].nodes && n in tr.packages[p].nodes)
  }

  /** The report is in the tree. */
  ghost predicate Present(tr: Tree, cfg: Config, r: Report) { exists k: nat, c: nat, p: nat :: FiledAs(tr, cfg, r, k, c, p) }

  /** CPU k of the tree comes from a report. */
  ghost predicate Reported(tr: Tree, cfg: Config, rs: seq<Report>, k: nat) {
    exists r, c: nat, p: nat :: r in rs && FiledAs(tr, cfg, r, k, c, p)
  }

  /** Node n of cache c was named by one of its CPUs. */
  ghost predicate NamedBy(tr: Tree, cfg: Config, rs: seq<Report>, c: nat, n: nat) {
    exists r, k: nat, p: nat :: r in rs && FiledAs(tr, cfg, r, k, c, p) && Names(tr.nodes, cfg.numaAvail, r, n)
  }

  /** Package p has the id of one of its reports. */
  ghost predicate IdFrom(tr: Tree, cfg: Config, rs: seq<Report>, p: nat) {
    p < |tr.packages| && exists r, k: nat, c: nat :: r in rs && FiledAs(tr, cfg, r, k, c, p) && tr.packages[p].number == r.packageId
  }

  ghost predicate Files(tr: Tree, cfg: Config, rs: seq<Report>) {
    && (forall r :: r in rs && r.number !in cfg.banned ==> Present(tr, cfg, r))
    && (forall k: nat :: k < |tr.cpus| ==> Reported(tr, cfg, rs, k))
    && (forall c: nat, n: nat :: c < |tr.caches| && n in tr.caches[c].nodes ==> NamedBy(tr, cfg, rs, c, n))
    && (forall p: nat :: p < |tr.packages| ==> IdFrom(tr, cfg, rs, p))
    && (forall c: nat :: c < |tr.caches| ==> tr.caches[c].number == c)
  }

  // ---- one report

  lemma NodeOfIs(nodes: seq<NodeRec>, numa: bool, id: int)
    ensures
      var n := NodeOf(nodes, numa, id);
      forall j: nat :: NodeFor(nodes, numa, id, j) <==> n == Some(j)
  {
  }

  lemma MaskIsCut(tr: Tree, cfg: Config, r: Report)
    ensures MaskIs(tr.nodes, cfg, r, PackageMask(tr, cfg, r))
  {
    hide NodeOf, NodeFor;
    NodeOfIs(tr.nodes, cfg.numaAvail, r.nodeId);
    var n := NodeOf(tr.nodes, cfg.numaAvail, r.nodeId);
    if n.Some? && cfg.numaAvail && |r.packageMask| > |tr.nodes[n.value].mask| {
      assert Cut(tr.nodes, cfg.numaAvail, r, n.value);
    }
  }

  lemma NamesKnown(tr: Tree, cfg: Config, r: Report, n: nat)
    ensures Names(tr.nodes, cfg.numaAvail, r, n) <==> KnownNode(tr, cfg, r.nodeId) == Some(n)
  {
    NodeOfIs(tr.nodes, cfg.numaAvail, r.nodeId);
  }

  /** A later tree: the same nodes, groups that only grow, and the CPUs so far. */
  ghost predicate Grown(gs: seq<Group>, hs: seq<Group>) {
    |gs| <= |hs| && forall j :: 0 <= j < |gs| ==>
      hs[j].mask == gs[j].mask && hs[j].number == gs[j].number && (forall x :: x in gs[j].children ==> x in hs[j].children) && (forall n :: n in gs[j].nodes ==> n in hs[j].nodes)
  }

  ghost predicate Later(tr: Tree, q: Tree) {
    && SameNodes(tr, q) && Grown(tr.caches, q.caches) && Grown(tr.packages, q.packages)
    && |tr.cpus| <= |q.cpus| && forall k :: 0 <= k < |tr.cpus| ==> q.cpus[k] == tr.cpus[k]
  }

  lemma SameNames(tr: Tree, q: Tree, cfg: Config, r: Report)
    requires SameNodes(tr, q)
    ensures forall n: nat :: Names(q.nodes, cfg.numaAvail, r, n) <==> Names(tr.nodes, cfg.numaAvail, r, n)
    ensures forall mask :: MaskIs(tr.nodes, cfg, r, mask) ==> MaskIs(q.nodes, cfg, r, mask)
  {
    assert forall n: nat :: NodeFor(q.nodes, cfg.numaAvail, r.nodeId, n) <==> NodeFor(tr.nodes, cfg.numaAvail, r.nodeId, n);
    assert forall n: nat :: Cut(q.nodes, cfg.numaAvail, r, n) <==> Cut(tr.nodes, cfg.numaAvail, r, n);
  }

  lemma FiledLater(tr: Tree, q: Tree, cfg: Config, r: Report, k: nat, c: nat, p: nat)
    requires Later(tr, q) && FiledAs(tr, cfg, r, k, c, p)
    ensures FiledAs(q, cfg, r, k, c, p)
  {
    hide MaskIs, Names;
    SameNames(tr, q, cfg, r);
  }

  lemma GroupGrows(gs: seq<Group>, hs: seq<Group>, j: nat, it: Item)
    requires FiledIn(gs, hs, j, it)
    ensures (forall i :: 0 <= i < |gs| ==> hs[i].number == gs[i].number) ==> Grown(gs, hs)
    ensures j < |hs| && it.child in hs[j].children && (it.node.Some? ==> it.node.value in hs[j].nodes)
  {
    hide FindMask;
    assert j < |gs| ==> gs[j].mask == it.mask;
  }

  lemma NodeFiled(gs: seq<Group>, hs: seq<Group>, j: nat, it: Item, c: nat, n: nat)
    requires FiledIn(gs, hs, j, it) && c < |hs| && n in hs[c].nodes
    ensures (c < |gs| && n in gs[c].nodes) || (c == j && it.node == Some(n))
  {
    hide FindMask, AddUnique;
    if c == j && it.node.Some? { AddUniqueElems(if j < |gs| then gs[j].nodes else [], it.node.value); }
  }

  lemma AddCpuFiles(tr: Tree, cfg: Config, r: Report, rs: seq<Report>)
    requires Files(tr, cfg, rs)
    ensures Files(AddCpu(tr, cfg, r), cfg, rs + [r])
  {
    hide FiledAs, FiledIn, AddCpu, Later, Names, FindMask;
    var q := AddCpu(tr, cfg, r);
    var all := rs + [r];
    assert r in all;
    if r.number in cfg.banned {
      AddBanned(tr, cfg, r);
      LaterSelf(tr);
    } else {
      var k, c, p := AddCpuFiled(tr, cfg, r);
    }
    forall x | x in all && x.number !in cfg.banned
      ensures Present(q, cfg, x)
    {
      if x in rs { LaterFiled(tr, q, cfg, x); }
    }
    forall j: nat | j < |q.cpus|
      ensures Reported(q, cfg, all, j)
    {
      if j < |tr.cpus| { LaterReported(tr, q, cfg, rs, r, j); }
    }
    forall d: nat, n: nat | d < |q.caches| && n in q.caches[d].nodes
      ensures NamedBy(q, cfg, all, d, n)
    {
      if d < |tr.caches| && n in tr.caches[d].nodes {
        assert NamedBy(tr, cfg, rs, d, n);
        LaterNamed(tr, q, cfg, rs, r, d, n);
      } else {
        var k, p := NewNode(tr, cfg, r, d, n);
      }
    }
    forall p: nat | p < |q.packages|
      ensures IdFrom(q, cfg, all, p)
    {
      if p < |tr.packages| {
        assert IdFrom(tr, cfg, rs, p);
        LaterId(tr, q, cfg, rs, r, p);
      } else {
        var k, c := NewPackage(tr, cfg, r, p);
      }
    }
  }

  lemma LaterId(tr: Tree, q: Tree, cfg: Config, rs: seq<Report>, r: Report, p: nat)
    requires Later(tr, q) && IdFrom(tr, cfg, rs, p)
    ensures IdFrom(q, cfg, rs + [r], p)
  {
    hide FiledAs, SameNodes;
    var x, k: nat, c: nat :| x in rs && FiledAs(tr, cfg, x, k, c, p) && tr.packages[p].number == x.packageId;
    FiledLater(tr, q, cfg, x, k, c, p);
    assert x in rs + [r];
  }

  /** Caches are numbered as they come; a package has the id of the report that made it. */
  lemma AddCpuNumbers(tr: Tree, cfg: Config, r: Report)
    requires r.number !in cfg.banned
    ensures
      var q := AddCpu(tr, cfg, r);
      && |tr.caches| <= |q.caches| && |tr.packages| <= |q.packages|
      && (forall c :: 0 <= c < |tr.caches| ==> q.caches[c].number == tr.caches[c].number)
      && (forall c :: |tr.caches| <= c < |q.caches| ==> q.caches[c].number == c)
      && (forall p :: 0 <= p < |tr.packages| ==> q.packages[p].number == tr.packages[p].number)
      && var p := FindMask(tr.packages, SeenOf(tr, cfg, r).pm);
         |q.packages| > |tr.packages| ==> p == |tr.packages| && |q.packages| == p + 1 && q.packages[p].number == r.packageId
  {
    hide FindMask, AddUnique, KnownNode, PackageMask, AddNode;
  }

  lemma LaterSelf(tr: Tree)
    ensures Later(tr, tr)
  {
  }

  lemma LaterFiled(tr: Tree, q: Tree, cfg: Config, x: Report)
    requires Later(tr, q) && Present(tr, cfg, x)
    ensures Present(q, cfg, x)
  {
    hide FiledAs, Later;
    var k: nat, c: nat, p: nat :| FiledAs(tr, cfg, x, k, c, p);
    FiledLater(tr, q, cfg, x, k, c, p);
  }

  lemma LaterReported(tr: Tree, q: Tree, cfg: Config, rs: seq<Report>, r: Report, k: nat)
    requires Later(tr, q) && Reported(tr, cfg, rs, k)
    ensures Reported(q, cfg, rs + [r], k)
  {
    hide FiledAs, Later;
    var x, c: nat, p: nat :| x in rs && FiledAs(tr, cfg, x, k, c, p);
    FiledLater(tr, q, cfg, x, k, c, p);
    assert x in rs + [r];
  }

  lemma LaterNamed(tr: Tree, q: Tree, cfg: Config, rs: seq<Report>, r: Report, c: nat, n: nat)
    requires Later(tr, q) && NamedBy(tr, cfg, rs, c, n)
    ensures NamedBy(q, cfg, rs + [r], c, n)
  {
    hide FiledAs, Names;
    var x, k: nat, p: nat :| x in rs && FiledAs(tr, cfg, x, k, c, p) && Names(tr.nodes, cfg.numaAvail, x, n);
    FiledLater(tr, q, cfg, x, k, c, p);
    SameNames(tr, q, cfg, x);
    assert x in rs + [r];
  }

  /** The new report and what it adds. */
  lemma AddCpuFiled(tr: Tree, cfg: Config, r: Report) returns (k: nat, c: nat, p: nat)
    requires r.number !in cfg.banned
    ensures
      var q := AddCpu(tr, cfg, r);
      && Later(tr, q) && k == |tr.cpus| && |q.cpus| == |tr.cpus| + 1 && FiledAs(q, cfg, r, k, c, p)
      && c == FindMask(tr.caches, SeenOf(tr, cfg, r).cm)
      && (forall d :: 0 <= d < |tr.caches| ==> q.caches[d].number == tr.caches[d].number)
      && (forall d :: |tr.caches| <= d < |q.caches| ==> q.caches[d].number == d)
      && (|q.packages| > |tr.packages| ==> p == |tr.packages| && |q.packages| == p + 1 && q.packages[p].number == r.packageId)
  {
    AddCpuNumbers(tr, cfg, r);
    hide FindMask, AddCpu, FiledIn, KnownNode, PackageMask, MaskIs, Names, Grown;
    var q := AddCpu(tr, cfg, r);
    var x := SeenOf(tr, cfg, r);
    k, c, p := |tr.cpus|, FindMask(tr.caches, x.cm), FindMask(tr.packages, x.pm);
    AddCpuGroups(tr, cfg, r);
    AddCpuSameNodes(tr, cfg, r);
    GroupGrows(tr.caches, q.caches, c, Item(x.cm, k, x.node));
    GroupGrows(tr.packages, q.packages, p, Item(x.pm, c, x.node));
    MaskOfFiled(tr.caches, q.caches, c, Item(x.cm, k, x.node));
    MaskOfFiled(tr.packages, q.packages, p, Item(x.pm, c, x.node));
    MaskIsCut(tr, cfg, r);
    SameNames(tr, q, cfg, r);
    forall n: nat ensures Names(q.nodes, cfg.numaAvail, r, n) <==> x.node == Some(n) { NamesKnown(tr, cfg, r, n); }
  }

  /** A node new to a cache was named by the new report, which is in that cache. */
  lemma NewNode(tr: Tree, cfg: Config, r: Report, d: nat, n: nat) returns (k: nat, p: nat)
    requires r.number !in cfg.banned
    requires d < |AddCpu(tr, cfg, r).caches| && n in AddCpu(tr, cfg, r).caches[d].nodes
    requires !(d < |tr.caches| && n in tr.caches[d].nodes)
    ensures FiledAs(AddCpu(tr, cfg, r), cfg, r, k, d, p) && Names(AddCpu(tr, cfg, r).nodes, cfg.numaAvail, r, n)
  {
    hide FindMask, AddCpu, FiledIn, FiledAs, KnownNode, PackageMask, Names, Later;
    var q := AddCpu(tr, cfg, r);
    var x := SeenOf(tr, cfg, r);
    var c;
    k, c, p := AddCpuFiled(tr, cfg, r);
    AddCpuGroups(tr, cfg, r);
    NodeFiled(tr.caches, q.caches, c, Item(x.cm, |tr.cpus|, x.node), d, n);
    NamesKnown(tr, cfg, r, n);
    AddCpuSameNodes(tr, cfg, r);
    SameNames(tr, q, cfg, r);
  }

  lemma NewPackage(tr: Tree, cfg: Config, r: Report, d: nat) returns (k: nat, c: nat)
    requires r.number !in cfg.banned && |tr.packages| <= d < |AddCpu(tr, cfg, r).packages|
    ensures FiledAs(AddCpu(tr, cfg, r), cfg, r, k, c, d) && AddCpu(tr, cfg, r).packages[d].number == r.packageId
  {
    hide FindMask, AddCpu, FiledAs, Later;
    var p;
    k, c, p := AddCpuFiled(tr, cfg, r);
  }

  lemma MaskOfFiled(gs: seq<Group>, hs: seq<Group>, j: nat, it: Item)
    requires FiledIn(gs, hs, j, it)
    ensures j < |hs| && hs[j].mask == it.mask
  {
    hide FindMask, AddUnique, AddNode;
  }

  // ---- all reports

  lemma {:induction false} AddCpusFiles(tr: Tree, cfg: Config, rs: seq<Report>)
    requires Bare(tr)
    ensures Files(AddCpus(tr, cfg, rs), cfg, rs)
    decreases |rs|
  {
    hide Files, AddCpu;
    if |rs| == 0 {
      BareFiles(tr, cfg);
      assert rs == [];
    } else {
      var init, r := rs[..|rs| - 1], rs[|rs| - 1];
      AddCpusFiles(tr, cfg, init);
      AddCpuFiles(AddCpus(tr, cfg, init), cfg, r, init);
      assert rs == init + [r];
    }
  }

  lemma BareFiles(tr: Tree, cfg: Config)
    requires Bare(tr)
    ensures Files(tr, cfg, [])
  {
    hide FiledAs;
  }

  /** The node list: the unspecified node over all CPUs, then, with NUMA, the nodes found, in order. */
  ghost predicate NodeList(nodes: seq<NodeRec>, cfg: Config, allCpus: set<nat>, found: seq<(nat, set<nat>)>) {
    && |nodes| == (if cfg.numaAvail then 1 + |found| else 1)
    && nodes[0].number == -1 && nodes[0].mask == allCpus
    && forall n :: 1 <= n < |nodes| ==> nodes[n].number == found[n - 1].0 && nodes[n].mask == found[n - 1].1
  }

  lemma {:induction false} FoundNodesAre(found: seq<(nat, set<nat>)>)
    ensures |FoundNodes(found)| == |found|
    ensures forall n :: 0 <= n < |found| ==> FoundNodes(found)[n].number == found[n].0 && FoundNodes(found)[n].mask == found[n].1
    decreases |found|
  {
    if |found| > 0 { FoundNodesAre(found[..|found| - 1]); }
  }

  /**
   In the built tree every unbanned report is one CPU, in the cache of its unbanned cache siblings, in the package of its
   unbanned package siblings, cut to the node when they are more than the node has; no other CPU is there, and a cache
   belongs to exactly the nodes its CPUs name.
   */
  lemma BuildFiles(cfg: Config, allCpus: set<nat>, found: seq<(nat, set<nat>)>, rs: seq<Report>)
    ensures
      var tr := Build(cfg, allCpus, found, rs);
      Files(tr, cfg, rs) && NodeList(tr.nodes, cfg, allCpus, found)
  {
    hide AddCpus, Files, ConnectAll, FoundNodes, NodesAfter, PackagesAfter;
    var start := StartTree(cfg, allCpus, found);
    StartBare(cfg, allCpus, found);
    AddCpusFiles(start, cfg, rs);
    AddCpusTraced(start, cfg, rs);
    var tr := AddCpus(start, cfg, rs);
    ConnectAllAfter(tr, |tr.packages|);
    FoundNodesAre(found);
    ConnectedLater(tr, ConnectAll(tr, |tr.packages|));
    FilesLater(tr, ConnectAll(tr, |tr.packages|), cfg, rs);
  }

  lemma ConnectedLater(tr: Tree, q: Tree)
    requires NodesAfter(tr, |tr.packages|, q) && PackagesAfter(tr, |tr.packages|, q)
    ensures Later(tr, q) && q.caches == tr.caches && |q.cpus| == |tr.cpus| && |q.packages| == |tr.packages|
  {
    hide Attached;
  }

  lemma FilesLater(tr: Tree, q: Tree, cfg: Config, rs: seq<Report>)
    requires Files(tr, cfg, rs) && Later(tr, q) && q.caches == tr.caches && |q.cpus| == |tr.cpus| && |q.packages| == |tr.packages|
    ensures Files(q, cfg, rs)
  {
    hide FiledAs, Later, Names;
    forall r | r in rs && r.number !in cfg.banned
      ensures Present(q, cfg, r)
    {
      LaterFiled(tr, q, cfg, r);
    }
    forall k: nat | k < |q.cpus|
      ensures Reported(q, cfg, rs, k)
    {
      assert Reported(tr, cfg, rs, k);
      var r, c: nat, p: nat :| r in rs && FiledAs(tr, cfg, r, k, c, p);
      FiledLater(tr, q, cfg, r, k, c, p);
    }
    forall c: nat, n: nat | c < |q.caches| && n in q.caches[c].nodes
      ensures NamedBy(q, cfg, rs, c, n)
    {
      var r, k: nat, p: nat :| r in rs && FiledAs(tr, cfg, r, k, c, p) && Names(tr.nodes, cfg.numaAvail, r, n);
      FiledLater(tr, q, cfg, r, k, c, p);
      LaterNodes(tr, q);
      SameNames(tr, q, cfg, r);
    }
    forall p: nat | p < |q.packages|
      ensures IdFrom(q, cfg, rs, p)
    {
      assert IdFrom(tr, cfg, rs, p);
      var r, k: nat, c: nat :| r in rs && FiledAs(tr, cfg, r, k, c, p) && tr.packages[p].number == r.packageId;
      FiledLater(tr, q, cfg, r, k, c, p);
      LaterNumber(tr, q, p);
    }
  }

  lemma LaterNumber(tr: Tree, q: Tree, p: nat)
    requires Later(tr, q) && p < |tr.packages|
    ensures p < |q.packages| && q.packages[p].number == tr.packages[p].number
  {
  }

  lemma LaterNodes(tr: Tree, q: Tree)
    requires Later(tr, q)
    ensures SameNodes(tr, q)
  {
  }
}
