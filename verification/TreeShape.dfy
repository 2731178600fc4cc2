/** The finished tree as a Topo, and the two things the rest of the daemon needs from it. */
module TreeShape {
  import opened Topology
  import opened CpuTree
  import opened TreeProof
  import opened Invariant
  import opened Balance

  // ---- ids: four interleaved numberings

  function CacheId(c: nat): ObjId { 4 * c + 1 }
  function PackageId(p: nat): ObjId { 4 * p + 2 }
  function NodeId(n: nat): ObjId { 4 * n + 3 }

  function KindOf(o: ObjId): Kind {
    if o % 4 == 0 then Cpu else if o % 4 == 1 then Cache else if o % 4 == 2 then Package else Node
  }

  function Count(tr: Tree, k: Kind): nat {
    match k
    case Cpu => |tr.cpus|
    case Cache => |tr.caches|
    case Package => |tr.packages|
    case Node => |tr.nodes|
  }

  predicate Exists(tr: Tree, o: ObjId) { o / 4 < Count(tr, KindOf(o)) }

  function Bound(tr: Tree): nat { 4 * (|tr.cpus| + |tr.caches| + |tr.packages| + |tr.nodes|) }

  function RefId(x: Ref): ObjId {
    match x
    case PackageRef(p) => PackageId(p)
    case CacheRef(c) => CacheId(c)
  }

  function Ids(l: seq<nat>, off: nat): seq<ObjId> { seq(|l|, i requires 0 <= i < |l| => 4 * l[i] + off) }

  function RefIds(l: seq<Ref>): seq<ObjId> { seq(|l|, i requires 0 <= i < |l| => RefId(l[i])) }

  function PlaceOf(tr: Tree, o: ObjId): Place
    requires Exists(tr, o)
  {
    var k := o / 4;
    match KindOf(o)
    case Cpu => Place(Cpu, tr.cpus[k].number, {tr.cpus[k].number}, Some(CacheId(tr.cpus[k].parent)), [])
    case Cache =>
      var g := tr.caches[k];
      Place(Cache, g.number, g.mask, if g.parent.Some? then Some(PackageId(g.parent.value)) else None, Ids(g.children, 0))
    case Package =>
      var g := tr.packages[k];
      Place(Package, g.number, g.mask, if g.parent.Some? then Some(NodeId(g.parent.value)) else None, Ids(g.children, 1))
    case Node => Place(Node, tr.nodes[k].number, tr.nodes[k].mask, None, RefIds(tr.nodes[k].children))
  }

  function Every(n: nat, off: nat): seq<ObjId> { seq(n, i => 4 * i + off) }

  function ToTopo(tr: Tree, cfg: Config): Topo {
    Topo(map o: nat | o < Bound(tr) && Exists(tr, o) :: PlaceOf(tr, o),
         Every(|tr.nodes|, 3), Every(|tr.packages|, 2), Every(|tr.caches|, 1), Every(|tr.cpus|, 0),
         cfg.banned, cfg.numaAvail)
  }

  lemma InBound(tr: Tree, o: ObjId)
    requires Exists(tr, o)
    ensures o < Bound(tr)
  {
  }

  lemma TopoAt(tr: Tree, cfg: Config, o: ObjId)
    ensures o in ToTopo(tr, cfg).at <==> Exists(tr, o)
    ensures Exists(tr, o) ==> ToTopo(tr, cfg).at[o] == PlaceOf(tr, o) && PlaceOf(tr, o).kind == KindOf(o)
  {
    hide PlaceOf;
    if Exists(tr, o) { InBound(tr, o); PlaceKind(tr, o); }
  }

  lemma PlaceKind(tr: Tree, o: ObjId)
    requires Exists(tr, o)
    ensures PlaceOf(tr, o).kind == KindOf(o)
  {
  }

  lemma EveryHas(n: nat, off: nat, o: ObjId)
    requires off < 4
    ensures o in Every(n, off) <==> o % 4 == off && o / 4 < n
    ensures NoDup(Every(n, off))
  {
    if o % 4 == off && o / 4 < n {
      assert Every(n, off)[o / 4] == o;
    }
  }

  lemma ListFor(tr: Tree, cfg: Config, k: Kind)
    ensures
      var t := ToTopo(tr, cfg);
      OnList(t, match k case Cpu => t.cpus case Cache => t.caches case Package => t.packages case Node => t.nodes, k)
  {
    hide PlaceOf, NoDup, Every;
    var t := ToTopo(tr, cfg);
    var off := Rank(k);
    forall o: ObjId
      ensures o in Every(Count(tr, k), off) <==> o in t.at && t.at[o].kind == k
    {
      EveryHas(Count(tr, k), off, o);
      TopoAt(tr, cfg, o);
    }
    EveryHas(Count(tr, k), off, 0);
  }

  // ---- links of the finished tree

  /** The tree after connecting, with the trace of how it came about. */
  ghost predicate Finished(r: Tree, tr: Tree, cfg: Config, seen: seq<Seen>) {
    Traced(tr, cfg, seen) && NodesAfter(tr, |tr.packages|, r) && PackagesAfter(tr, |tr.packages|, r)
  }

  lemma IdsHas(l: seq<nat>, off: nat, o: ObjId)
    requires off < 4
    ensures o in Ids(l, off) <==> o % 4 == off && o / 4 in l
    ensures NoDup(l) ==> NoDup(Ids(l, off))
  {
    if o % 4 == off && o / 4 in l {
      var i :| 0 <= i < |l| && l[i] == o / 4;
      assert Ids(l, off)[i] == o;
    }
  }

  lemma RefIdsHas(l: seq<Ref>, o: ObjId)
    ensures o in RefIds(l) <==> (o % 4 == 2 && PackageRef(o / 4) in l) || (o % 4 == 1 && CacheRef(o / 4) in l)
    ensures NoDup(l) ==> NoDup(RefIds(l))
  {
    if o % 4 == 2 && PackageRef(o / 4) in l {
      var i :| 0 <= i < |l| && l[i] == PackageRef(o / 4);
      assert RefIds(l)[i] == o;
    }
    if o % 4 == 1 && CacheRef(o / 4) in l {
      var i :| 0 <= i < |l| && l[i] == CacheRef(o / 4);
      assert RefIds(l)[i] == o;
    }
  }

  /** The children of each kind of object. */
  lemma ChildrenOf(r: Tree, cfg: Config, o: ObjId, x: ObjId)
    requires Exists(r, o)
    ensures o in ToTopo(r, cfg).at
    ensures
      x in ToTopo(r, cfg).at[o].children <==>
        match KindOf(o)
        case Cpu => false
        case Cache => x % 4 == 0 && x / 4 in r.caches[o / 4].children
        case Package => x % 4 == 1 && x / 4 in r.packages[o / 4].children
        case Node => (x % 4 == 2 && PackageRef(x / 4) in r.nodes[o / 4].children) || (x % 4 == 1 && CacheRef(x / 4) in r.nodes[o / 4].children)
  {
    hide Ids, RefIds, NoDup;
    TopoAt(r, cfg, o);
    match KindOf(o)
    case Cpu =>
    case Cache => IdsHas(r.caches[o / 4].children, 0, x);
    case Package => IdsHas(r.packages[o / 4].children, 1, x);
    case Node => RefIdsHas(r.nodes[o / 4].children, x);
  }

  /** A child exists and is of a lower kind. */
  lemma ChildBelow(r: Tree, tr: Tree, cfg: Config, seen: seq<Seen>, o: ObjId, x: ObjId)
    requires Finished(r, tr, cfg, seen) && Exists(r, o) && o in ToTopo(r, cfg).at && x in ToTopo(r, cfg).at[o].children
    ensures Exists(r, x) && Rank(KindOf(x)) < Rank(KindOf(o))
  {
    hide ToTopo, Grouped, CpuLinks, Hung, Parents, NoDup, Refs, NodesAfter;
    ChildrenOf(r, cfg, o, x);
    KidsInRange(tr, cfg, seen);
    SameCounts(r, tr);
    match KindOf(o)
    case Cpu =>
    case Cache => CacheKid(tr, cfg, seen, o / 4, x / 4);
    case Package => assert r.packages[o / 4].children == tr.packages[o / 4].children;
    case Node =>
      RefInRange(r, tr, cfg, seen, o / 4, if x % 4 == 2 then PackageRef(x / 4) else CacheRef(x / 4));
  }

  lemma SameCounts(r: Tree, tr: Tree)
    requires NodesAfter(tr, |tr.packages|, r) && PackagesAfter(tr, |tr.packages|, r)
    ensures |r.nodes| == |tr.nodes| && |r.packages| == |tr.packages| && r.caches == tr.caches && r.cpus == tr.cpus
  {
  }

  lemma RefInRange(r: Tree, tr: Tree, cfg: Config, seen: seq<Seen>, n: nat, x: Ref)
    requires Finished(r, tr, cfg, seen) && n < |r.nodes| && x in r.nodes[n].children
    ensures match x case PackageRef(p) => p < |r.packages| case CacheRef(c) => c < |r.caches|
  {
    hide Grouped, CpuLinks, Hung, Parents, NoDup;
    assert x in tr.nodes[n].children || Attached(tr, |tr.packages|, n, x);
  }

  /** A parent link names an object that lists the child. */
  lemma ParentLists(r: Tree, tr: Tree, cfg: Config, seen: seq<Seen>, o: ObjId)
    requires Finished(r, tr, cfg, seen) && Exists(r, o)
    ensures o in ToTopo(r, cfg).at
    ensures
      var t := ToTopo(r, cfg);
      t.at[o].parent.Some? ==> t.at[o].parent.value in t.at && o in t.at[t.at[o].parent.value].children
  {
    hide ToTopo, Grouped, Hung, Refs, NoDup, Ids, RefIds;
    TopoAt(r, cfg, o);
    var t := ToTopo(r, cfg);
    if t.at[o].parent.Some? {
      var p := t.at[o].parent.value;
      ParentExists(r, tr, cfg, seen, o);
      TopoAt(r, cfg, p);
      ChildrenOf(r, cfg, p, o);
    }
  }

  lemma ParentExists(r: Tree, tr: Tree, cfg: Config, seen: seq<Seen>, o: ObjId)
    requires Finished(r, tr, cfg, seen) && Exists(r, o) && PlaceOf(r, o).parent.Some?
    ensures
      var p := PlaceOf(r, o).parent.value;
      && Exists(r, p)
      && match KindOf(o)
         case Cpu => KindOf(p) == Cache && o / 4 in r.caches[p / 4].children
         case Cache => KindOf(p) == Package && o / 4 in r.packages[p / 4].children
         case Package => KindOf(p) == Node && PackageRef(o / 4) in r.nodes[p / 4].children
         case Node => false
  {
    hide Refs, NoDup, Ids, RefIds, Hung, Grouped, NodesAfter, Parents, CpuLinks, PackagesAfter;
    SameCounts(r, tr);
    var k := o / 4;
    match KindOf(o)
    case Cpu => CpuInCache(tr, cfg, seen, k);
    case Cache => CacheParent(r, tr, cfg, seen, k);
    case Package => PackageParent(r, tr, cfg, seen, k);
    case Node =>
  }

  lemma CacheParent(r: Tree, tr: Tree, cfg: Config, seen: seq<Seen>, c: nat)
    requires Finished(r, tr, cfg, seen) && c < |r.caches| && r.caches[c].parent.Some?
    ensures r.caches[c].parent.value < |r.packages| && c in r.packages[r.caches[c].parent.value].children
  {
    hide Refs, NoDup, Hung, Grouped, NodesAfter, CpuLinks;
  }

  lemma PackageParent(r: Tree, tr: Tree, cfg: Config, seen: seq<Seen>, p: nat)
    requires Finished(r, tr, cfg, seen) && p < |r.packages| && r.packages[p].parent.Some?
    ensures r.packages[p].parent.value < |r.nodes| && PackageRef(p) in r.nodes[r.packages[p].parent.value].children
  {
    hide Refs, NoDup, Hung, Grouped, CpuLinks;
    var n := r.packages[p].parent.value;
    if tr.packages[p].parent.None? {
      assert tr.packages[p].nodes == [n];
      PackageNodes(tr, cfg, seen, p);
      assert n in tr.packages[p].nodes;
      assert Attached(tr, |tr.packages|, n, PackageRef(p));
    }
  }

  lemma CpuInCache(tr: Tree, cfg: Config, seen: seq<Seen>, k: nat)
    requires Traced(tr, cfg, seen) && k < |tr.cpus|
    ensures tr.cpus[k].parent < |tr.caches| && k in tr.caches[tr.cpus[k].parent].children
  {
    hide Parents, Refs, Hung, NoDup;
    var items := CacheItems(seen);
    assert InSome(tr.caches, items[k]);
    var j :| Filed(tr.caches, items[k], j);
    SameMask(tr.caches, j, tr.cpus[k].parent);
  }

  /** Whatever the reports, the tree is well linked. */
  lemma FinishedShaped(r: Tree, tr: Tree, cfg: Config, seen: seq<Seen>)
    requires Finished(r, tr, cfg, seen)
    ensures Shaped(ToTopo(r, cfg))
  {
    hide ToTopo, Finished, OnList, PlaceOf, Exists;
    var t := ToTopo(r, cfg);
    ListFor(r, cfg, Cpu);
    ListFor(r, cfg, Cache);
    ListFor(r, cfg, Package);
    ListFor(r, cfg, Node);
    forall o, c | o in t.at && c in t.at[o].children
      ensures c in t.at && Rank(t.at[c].kind) < Rank(t.at[o].kind)
    {
      TopoAt(r, cfg, o);
      ChildBelow(r, tr, cfg, seen, o, c);
      TopoAt(r, cfg, c);
    }
    forall o | o in t.at && t.at[o].parent.Some?
      ensures t.at[o].parent.value in t.at && o in t.at[t.at[o].parent.value].children
    {
      TopoAt(r, cfg, o);
      ParentLists(r, tr, cfg, seen, o);
    }
    forall o | o in t.at && t.at[o].kind == Cpu
      ensures t.at[o].mask != {}
    {
      TopoAt(r, cfg, o);
      CpuMask(r, o);
    }
    HasNode(r, tr, cfg, seen);
  }

  lemma CpuMask(r: Tree, o: ObjId)
    requires Exists(r, o) && KindOf(o) == Cpu
    ensures PlaceOf(r, o).mask != {}
  {
    assert r.cpus[o / 4].number in PlaceOf(r, o).mask;
  }

  lemma HasNode(r: Tree, tr: Tree, cfg: Config, seen: seq<Seen>)
    requires Finished(r, tr, cfg, seen)
    ensures exists n :: n in ToTopo(r, cfg).nodes
  {
    EveryHas(|r.nodes|, 3, 3);
    assert 3 in ToTopo(r, cfg).nodes;
  }

  // ---- consistent reports: every object hangs in one place

  /** Without NUMA all CPUs report the one unspecified node. */
  ghost predicate Flat(cfg: Config, seen: seq<Seen>) {
    !cfg.numaAvail ==> forall j, k :: 0 <= j < |seen| && 0 <= k < |seen| ==> seen[j].node == seen[k].node
  }

  /** A finished tree whose reports were consistent. */
  ghost predicate Sound(r: Tree, tr: Tree, cfg: Config, seen: seq<Seen>) {
    Finished(r, tr, cfg, seen) && Consistent(seen) && Flat(cfg, seen)
  }

  ghost predicate Split(tr: Tree, c: nat, p: nat) {
    p < |tr.packages| && |tr.packages[p].nodes| > 1 && c in tr.packages[p].children
  }

  /** Where x hangs: a package below its only node, a cache of a split package below its own node. */
  ghost predicate Belongs(tr: Tree, n: nat, x: Ref) {
    match x
    case PackageRef(p) => p < |tr.packages| && tr.packages[p].nodes == [n]
    case CacheRef(c) => c < |tr.caches| && tr.caches[c].nodes == [n] && exists p :: Split(tr, c, p)
  }

  lemma FlatPackage(tr: Tree, cfg: Config, seen: seq<Seen>, p: nat, n: nat)
    requires Traced(tr, cfg, seen) && Consistent(seen) && Flat(cfg, seen) && !cfg.numaAvail
    requires p < |tr.packages| && n in tr.packages[p].nodes
    ensures tr.packages[p].nodes == [n]
  {
    hide Grouped, CpuLinks, Hung, Parents, Refs, NoDup;
    var items := PackageItems(tr, seen);
    var j := NodeItem(tr.packages, items, p, n);
    forall m | m in tr.packages[p].nodes
      ensures m == n
    {
      var k := NodeItem(tr.packages, items, p, m);
      assert seen[j].node == seen[k].node;
    }
    GroupNoDup(tr.packages, items, p);
    OnlyElement(tr.packages[p].nodes, n);
  }

  lemma NodeChildren(r: Tree, tr: Tree, cfg: Config, seen: seq<Seen>, n: nat, x: Ref)
    requires Sound(r, tr, cfg, seen) && n < |r.nodes|
    ensures x in r.nodes[n].children <==> Belongs(tr, n, x)
  {
    hide Grouped, CpuLinks, Parents, Refs, NoDup, Consistent, Flat;
    if x in tr.nodes[n].children {
      assert HangsRight(tr, cfg, n, x);
      FlatPackage(tr, cfg, seen, x.p, n);
    }
    if x.CacheRef? { AttachedSplit(tr, n, x.c); }
  }

  lemma AttachedSplit(tr: Tree, n: nat, c: nat)
    ensures Attached(tr, |tr.packages|, n, CacheRef(c)) <==> Belongs(tr, n, CacheRef(c))
  {
    if Attached(tr, |tr.packages|, n, CacheRef(c)) {
      var p: nat :| SplitOver(tr, |tr.packages|, p, c);
      assert Split(tr, c, p);
    }
    if Belongs(tr, n, CacheRef(c)) {
      var p: nat :| Split(tr, c, p);
      assert SplitOver(tr, |tr.packages|, p, c);
    }
  }

  /** The children of a reachable kind of object, in terms of the trace. */
  ghost predicate ListedBy(tr: Tree, a: ObjId, x: ObjId) {
    match KindOf(a)
    case Cpu => false
    case Cache => x % 4 == 0 && x / 4 < |tr.cpus| && tr.cpus[x / 4].parent == a / 4
    case Package => x % 4 == 1 && a / 4 < |tr.packages| && x / 4 in tr.packages[a / 4].children
    case Node =>
      || (x % 4 == 2 && Belongs(tr, a / 4, PackageRef(x / 4)))
      || (x % 4 == 1 && Belongs(tr, a / 4, CacheRef(x / 4)))
  }

  lemma ChildListed(r: Tree, tr: Tree, cfg: Config, seen: seq<Seen>, a: ObjId, x: ObjId)
    requires Sound(r, tr, cfg, seen) && Exists(r, a) && a in ToTopo(r, cfg).at
    ensures x in ToTopo(r, cfg).at[a].children <==> ListedBy(tr, a, x)
  {
    hide ToTopo, Grouped, CpuLinks, Hung, Parents, NoDup, Refs, NodesAfter, Consistent, Flat, Belongs;
    ChildrenOf(r, cfg, a, x);
    SameCounts(r, tr);
    match KindOf(a)
    case Cpu =>
    case Cache =>
      if x / 4 in tr.caches[a / 4].children { CacheKid(tr, cfg, seen, a / 4, x / 4); }
      if x / 4 < |tr.cpus| { CpuInCache(tr, cfg, seen, x / 4); }
    case Package => assert r.packages[a / 4].children == tr.packages[a / 4].children;
    case Node =>
      NodeChildren(r, tr, cfg, seen, a / 4, PackageRef(x / 4));
      NodeChildren(r, tr, cfg, seen, a / 4, CacheRef(x / 4));
  }

  /** A package under some node is not split. */
  lemma HungNotSplit(r: Tree, tr: Tree, cfg: Config, seen: seq<Seen>, a: ObjId)
    requires Sound(r, tr, cfg, seen) && Shaped(ToTopo(r, cfg)) && a in Reach(ToTopo(r, cfg)) && a % 4 == 2
    ensures a / 4 < |tr.packages| && |tr.packages[a / 4].nodes| == 1
  {
    hide ToTopo, Finished, Consistent, Flat, Shaped, Reach;
    var t := ToTopo(r, cfg);
    ReachInTree(t, a);
    TopoAt(r, cfg, a);
    NodeList(r, cfg, a);
    var y := ReachedFrom(t, a);
    ReachInTree(t, y);
    TopoAt(r, cfg, y);
    ChildListed(r, tr, cfg, seen, y, a);
  }

  lemma NodeList(r: Tree, cfg: Config, a: ObjId)
    ensures a in ToTopo(r, cfg).nodes <==> a % 4 == 3 && a / 4 < |r.nodes|
  {
    EveryHas(|r.nodes|, 3, a);
  }

  /** No child has two reachable parents. */
  lemma OneParent(r: Tree, tr: Tree, cfg: Config, seen: seq<Seen>, a: ObjId, b: ObjId, x: ObjId)
    requires Sound(r, tr, cfg, seen) && Shaped(ToTopo(r, cfg))
    requires a in Reach(ToTopo(r, cfg)) && b in Reach(ToTopo(r, cfg)) && ListedBy(tr, a, x) && ListedBy(tr, b, x)
    ensures a == b
  {
    hide ToTopo, Finished, Consistent, Flat, Shaped, Reach, NoDup;
    if a % 4 == 2 { HungNotSplit(r, tr, cfg, seen, a); }
    if b % 4 == 2 { HungNotSplit(r, tr, cfg, seen, b); }
    if x % 4 == 1 {
      var p := CacheAbove(tr, a, x);
      var q := CacheAbove(tr, b, x);
      SoundOnePackage(r, tr, cfg, seen, x / 4, p, q);
    } else {
      assert KindOf(a) == KindOf(b);
    }
  }

  lemma SoundOnePackage(r: Tree, tr: Tree, cfg: Config, seen: seq<Seen>, c: nat, p: nat, q: nat)
    requires Sound(r, tr, cfg, seen) && p < |tr.packages| && q < |tr.packages|
    requires c in tr.packages[p].children && c in tr.packages[q].children
    ensures p == q
  {
    hide Traced, Consistent, NodesAfter, PackagesAfter;
    OnePackage(tr, cfg, seen, c, p, q);
  }

  /** a lists cache c of package p: a is p itself and p has one node, or a is c's node and p is split. */
  ghost predicate CacheSpot(tr: Tree, a: ObjId, c: nat, p: nat) {
    && p < |tr.packages| && c in tr.packages[p].children
    && match KindOf(a)
       case Package => p == a / 4 && |tr.packages[p].nodes| == 1
       case Node => c < |tr.caches| && tr.caches[c].nodes == [a / 4] && |tr.packages[p].nodes| > 1
       case _ => false
  }

  /** A cache of a whole package hangs there only; one of a split package hangs below a node. */
  lemma CacheAbove(tr: Tree, a: ObjId, x: ObjId) returns (p: nat)
    requires x % 4 == 1 && ListedBy(tr, a, x)
    requires a % 4 == 2 ==> a / 4 < |tr.packages| && |tr.packages[a / 4].nodes| == 1
    ensures CacheSpot(tr, a, x / 4, p)
  {
    if KindOf(a) == Package {
      p := a / 4;
    } else {
      var q: nat :| Split(tr, x / 4, q);
      p := q;
    }
  }

  lemma ChildrenNoDup(r: Tree, tr: Tree, cfg: Config, seen: seq<Seen>, o: ObjId)
    requires Finished(r, tr, cfg, seen) && Exists(r, o)
    ensures o in ToTopo(r, cfg).at && NoDup(ToTopo(r, cfg).at[o].children)
  {
    hide ToTopo, Grouped, CpuLinks, Hung, Parents, NoDup, Ids, RefIds, Belongs, Attached;
    TopoAt(r, cfg, o);
    SameCounts(r, tr);
    NoDupNil();
    match KindOf(o)
    case Cpu =>
    case Cache =>
      GroupNoDup(tr.caches, CacheItems(seen), o / 4);
      IdsHas(r.caches[o / 4].children, 0, 0);
    case Package =>
      GroupNoDup(tr.packages, PackageItems(tr, seen), o / 4);
      IdsHas(r.packages[o / 4].children, 1, 0);
    case Node => RefIdsHas(r.nodes[o / 4].children, 0);
  }

  /** Consistent reports give a tree: below the nodes every object has one parent. */
  lemma SoundTree(r: Tree, tr: Tree, cfg: Config, seen: seq<Seen>)
    requires Sound(r, tr, cfg, seen)
    ensures TreeBelow(ToTopo(r, cfg))
  {
    hide ToTopo, Finished, Consistent, Flat, Shaped, Reach, NoDup, ListedBy, Exists;
    FinishedShaped(r, tr, cfg, seen);
    var t := ToTopo(r, cfg);
    forall o | o in Reach(t) && o in t.at
      ensures NoDup(t.at[o].children)
    {
      TopoAt(r, cfg, o);
      ChildrenNoDup(r, tr, cfg, seen, o);
    }
    forall a, b, c | a in Reach(t) && b in Reach(t) && a in t.at && b in t.at && c in t.at[a].children && c in t.at[b].children
      ensures a == b
    {
      TopoAt(r, cfg, a);
      TopoAt(r, cfg, b);
      ChildListed(r, tr, cfg, seen, a, c);
      ChildListed(r, tr, cfg, seen, b, c);
      OneParent(r, tr, cfg, seen, a, b, c);
    }
  }

  lemma ListedReached(r: Tree, tr: Tree, cfg: Config, seen: seq<Seen>, a: ObjId, x: ObjId)
    requires Sound(r, tr, cfg, seen) && Shaped(ToTopo(r, cfg)) && a in Reach(ToTopo(r, cfg)) && ListedBy(tr, a, x)
    ensures x in Reach(ToTopo(r, cfg))
  {
    hide ToTopo, Finished, Consistent, Flat, Shaped, Reach, ListedBy, Exists;
    ReachInTree(ToTopo(r, cfg), a);
    TopoAt(r, cfg, a);
    ChildListed(r, tr, cfg, seen, a, x);
    ReachChild(ToTopo(r, cfg), a, x);
  }

  lemma CacheReached(r: Tree, tr: Tree, cfg: Config, seen: seq<Seen>, c: nat)
    requires Sound(r, tr, cfg, seen) && Shaped(ToTopo(r, cfg)) && c < |tr.caches|
    ensures CacheId(c) in Reach(ToTopo(r, cfg))
  {
    hide ToTopo, Grouped, Consistent, Flat, Shaped, Reach, CpuLinks, Refs, Hung, NodesAfter, NoDup;
    SameCounts(r, tr);
    var p := tr.caches[c].parent.value;
    SomeNode(tr, cfg, seen, p);
    PackageNodes(tr, cfg, seen, p);
    var n := tr.packages[p].nodes[0];
    assert n in tr.packages[p].nodes;
    if |tr.packages[p].nodes| == 1 {
      NodeList(r, cfg, NodeId(n));
      ReachNode(ToTopo(r, cfg), NodeId(n));
      assert tr.packages[p].nodes == [n];
      ListedReached(r, tr, cfg, seen, NodeId(n), PackageId(p));
      ListedReached(r, tr, cfg, seen, PackageId(p), CacheId(c));
    } else {
      OneNode(tr, cfg, seen, c);
      var m := tr.caches[c].nodes[0];
      NodeList(r, cfg, NodeId(m));
      ReachNode(ToTopo(r, cfg), NodeId(m));
      assert tr.caches[c].nodes == [m] && Split(tr, c, p);
      ListedReached(r, tr, cfg, seen, NodeId(m), CacheId(c));
    }
  }

  lemma SoundReached(r: Tree, tr: Tree, cfg: Config, seen: seq<Seen>)
    requires Sound(r, tr, cfg, seen)
    ensures CpusReached(ToTopo(r, cfg))
  {
    hide ToTopo, Finished, Consistent, Flat, Shaped, Reach, Exists, Traced, NodesAfter, PackagesAfter;
    FinishedShaped(r, tr, cfg, seen);
    var t := ToTopo(r, cfg);
    forall o | o in t.at && t.at[o].kind == Cpu
      ensures o in Reach(t)
    {
      TopoAt(r, cfg, o);
      CpuParent(r, tr, cfg, seen, o);
      var c := tr.cpus[o / 4].parent;
      CacheReached(r, tr, cfg, seen, c);
      ListedReached(r, tr, cfg, seen, CacheId(c), o);
    }
  }

  lemma CpuParent(r: Tree, tr: Tree, cfg: Config, seen: seq<Seen>, o: ObjId)
    requires Finished(r, tr, cfg, seen) && Exists(r, o) && KindOf(o) == Cpu
    ensures o % 4 == 0 && o / 4 < |tr.cpus| && tr.cpus[o / 4].parent < |tr.caches|
  {
    hide Grouped, Refs, Hung, Parents, NodesAfter;
  }

  // ---- paths

  /** A walk along children links that starts at a NUMA node. */
  ghost predicate Path(t: Topo, p: seq<ObjId>)
    decreases |p|
  {
    && |p| > 0
    && if |p| == 1 then p[0] in t.nodes
       else Path(t, p[..|p| - 1]) && p[|p| - 2] in t.at && p[|p| - 1] in t.at[p[|p| - 2]].children
  }

  lemma PathStep(t: Topo, p: seq<ObjId>, c: ObjId)
    requires Path(t, p) && p[|p| - 1] in t.at && c in t.at[p[|p| - 1]].children
    ensures Path(t, p + [c])
  {
    assert (p + [c])[..|p|] == p;
  }

  lemma {:induction false} PathReaches(t: Topo, p: seq<ObjId>)
    requires Shaped(t) && Path(t, p)
    ensures p[|p| - 1] in Reach(t)
    decreases |p|
  {
    hide Reach, Shaped;
    if |p| == 1 {
      ReachNode(t, p[0]);
    } else {
      var q := p[..|p| - 1];
      PathReaches(t, q);
      ReachChild(t, p[|p| - 2], p[|p| - 1]);
    }
  }

  lemma {:induction false} DescPath(t: Topo, o: ObjId, x: ObjId, p: seq<ObjId>) returns (q: seq<ObjId>)
    requires Shaped(t) && o in t.at && x in Desc(t, o) && Path(t, p) && p[|p| - 1] == o
    ensures Path(t, q) && q[|q| - 1] == x
    decreases Rank(t.at[o].kind)
  {
    hide Path, NoDup;
    if x == o {
      q := p;
    } else {
      var c :| c in t.at[o].children && x in Desc(t, c);
      PathStep(t, p, c);
      q := DescPath(t, c, x, p + [c]);
    }
  }

  ghost predicate PathTo(t: Topo, p: seq<ObjId>, x: ObjId) {
    Path(t, p) && p[|p| - 1] == x
  }

  /** In a tree two walks to the same object are the same walk. */
  lemma {:induction false} PathsAgree(t: Topo, p: seq<ObjId>, q: seq<ObjId>)
    requires TreeBelow(t) && Path(t, p) && Path(t, q) && p[|p| - 1] == q[|q| - 1]
    ensures p == q
    decreases |p|
  {
    hide TreeBelow, Path;
    PathEnd(t, p);
    PathEnd(t, q);
    if |p| > 1 {
      var p', q' := p[..|p| - 1], q[..|q| - 1];
      SameStep(t, p[|p| - 2], q[|q| - 2], p[|p| - 1]);
      PathsAgree(t, p', q');
      assert p == p' + [p[|p| - 1]] && q == q' + [q[|q| - 1]];
    }
  }

  lemma SameStep(t: Topo, a: ObjId, b: ObjId, c: ObjId)
    requires TreeBelow(t) && a in Reach(t) && b in Reach(t) && a in t.at && b in t.at
    requires c in t.at[a].children && c in t.at[b].children
    ensures a == b
  {
    hide Reach, NoDup;
  }

  /** A walk ends at a node or comes from a reachable object. */
  lemma PathEnd(t: Topo, p: seq<ObjId>)
    requires TreeBelow(t) && Path(t, p)
    ensures |p| > 0 && (p[|p| - 1] in t.nodes <==> |p| == 1)
    ensures |p| > 1 ==>
      Path(t, p[..|p| - 1]) && p[|p| - 2] in t.at && p[|p| - 2] in Reach(t) && p[|p| - 1] in t.at[p[|p| - 2]].children
  {
    hide Reach, NoDup;
    NodesAreTops(t, p);
    if |p| > 1 { PathReaches(t, p[..|p| - 1]); }
  }

  lemma NodesAreTops(t: Topo, p: seq<ObjId>)
    requires Shaped(t) && Path(t, p)
    ensures p[|p| - 1] in t.nodes <==> |p| == 1
  {
    hide NoDup;
  }

  /** Following children links from the nodes reaches x exactly once. */
  ghost predicate ReachedOnce(t: Topo, x: ObjId) {
    && (exists p :: PathTo(t, p, x))
    && (forall p, q :: PathTo(t, p, x) && PathTo(t, q, x) ==> p == q)
  }

  lemma OncePath(t: Topo, x: ObjId)
    requires TreeBelow(t) && x in Reach(t)
    ensures ReachedOnce(t, x)
  {
    hide NoDup, Path, Desc;
    var n :| n in t.nodes && x in Desc(t, n);
    PathOne(t, n);
    NodeKnown(t, n);
    var w := DescPath(t, n, x, [n]);
    assert PathTo(t, w, x);
    forall p, q | PathTo(t, p, x) && PathTo(t, q, x)
      ensures p == q
    {
      PathsAgree(t, p, q);
    }
  }

  lemma NodeKnown(t: Topo, n: ObjId)
    requires Shaped(t) && n in t.nodes
    ensures n in t.at
  {
  }

  lemma PathOne(t: Topo, n: ObjId)
    requires n in t.nodes
    ensures Path(t, [n])
  {
  }

  // ---- the whole builder

  lemma {:induction false} FoundBare(found: seq<(nat, set<nat>)>)
    ensures forall x :: x in FoundNodes(found) ==> x.children == []
    decreases |found|
  {
    if |found| > 0 { FoundBare(found[..|found| - 1]); }
  }

  lemma StartBare(cfg: Config, allCpus: set<nat>, found: seq<(nat, set<nat>)>)
    ensures Bare(StartTree(cfg, allCpus, found))
  {
    hide FoundNodes;
    FoundBare(found);
  }

  /** Two unbanned CPUs with the same masked cache mask report the same masked package mask and the same, known node. */
  ghost predicate ConsistentReports(tr: Tree, cfg: Config, rs: seq<Report>) {
    && (forall a, b ::
          (a in rs && b in rs && a.number !in cfg.banned && b.number !in cfg.banned &&
           SeenOf(tr, cfg, a).cm == SeenOf(tr, cfg, b).cm)
          ==> SeenOf(tr, cfg, a) == SeenOf(tr, cfg, b))
    && (forall a :: a in rs && a.number !in cfg.banned ==> SeenOf(tr, cfg, a).node.Some?)
  }

  ghost function Unbanned(cfg: Config, rs: seq<Report>): seq<nat> {
    if |rs| == 0 then []
    else Unbanned(cfg, rs[..|rs| - 1]) + if rs[|rs| - 1].number in cfg.banned then [] else [rs[|rs| - 1].number]
  }

  lemma {:induction false} SeenFrom(tr: Tree, cfg: Config, rs: seq<Report>)
    ensures forall x :: x in SeenAll(tr, cfg, rs) ==> exists a :: a in rs && a.number !in cfg.banned && x == SeenOf(tr, cfg, a)
    decreases |rs|
  {
    hide SeenOf;
    if |rs| > 0 {
      var init, r := rs[..|rs| - 1], rs[|rs| - 1];
      SeenFrom(tr, cfg, init);
      forall x | x in SeenAll(tr, cfg, rs)
        ensures exists a :: a in rs && a.number !in cfg.banned && x == SeenOf(tr, cfg, a)
      {
        if x in SeenAll(tr, cfg, init) {
          var a :| a in init && a.number !in cfg.banned && x == SeenOf(tr, cfg, a);
          assert a in rs;
        } else {
          assert r in rs && x == SeenOf(tr, cfg, r);
        }
      }
    }
  }

  lemma ReportsConsistent(tr: Tree, cfg: Config, rs: seq<Report>)
    requires ConsistentReports(tr, cfg, rs)
    ensures Consistent(SeenAll(tr, cfg, rs))
  {
    hide SeenOf, SeenAll;
    SeenFrom(tr, cfg, rs);
    var seen := SeenAll(tr, cfg, rs);
    forall j, k | 0 <= j < |seen| && 0 <= k < |seen| && seen[j].cm == seen[k].cm
      ensures seen[j] == seen[k]
    {
      assert seen[j] in seen && seen[k] in seen;
    }
    forall k | 0 <= k < |seen|
      ensures seen[k].node.Some?
    {
      assert seen[k] in seen;
    }
  }

  lemma ReportsFlat(tr: Tree, cfg: Config, rs: seq<Report>)
    ensures Flat(cfg, SeenAll(tr, cfg, rs))
  {
    hide SeenAll, NodeFrom, PackageMask;
    SeenFrom(tr, cfg, rs);
    var seen := SeenAll(tr, cfg, rs);
    if !cfg.numaAvail {
      forall j, k | 0 <= j < |seen| && 0 <= k < |seen|
        ensures seen[j].node == seen[k].node
      {
        assert seen[j] in seen && seen[k] in seen;
      }
    }
  }

  lemma {:induction false} AddCpusNumbers(tr: Tree, cfg: Config, rs: seq<Report>)
    requires tr.cpus == []
    ensures
      var cpus := AddCpus(tr, cfg, rs).cpus;
      |cpus| == |Unbanned(cfg, rs)| && forall k :: 0 <= k < |cpus| ==> cpus[k].number == Unbanned(cfg, rs)[k]
    decreases |rs|
  {
    hide AddCpu;
    if |rs| > 0 {
      var init, r := rs[..|rs| - 1], rs[|rs| - 1];
      AddCpusNumbers(tr, cfg, init);
      var q := AddCpus(tr, cfg, init);
      if r.number in cfg.banned { AddBanned(q, cfg, r); } else { AddCpuGroups(q, cfg, r); }
    }
  }

  lemma BuildFinished(cfg: Config, allCpus: set<nat>, found: seq<(nat, set<nat>)>, rs: seq<Report>)
    ensures
      var start := StartTree(cfg, allCpus, found);
      Finished(Build(cfg, allCpus, found, rs), AddCpus(start, cfg, rs), cfg, SeenAll(start, cfg, rs))
  {
    hide Traced, NodesAfter, PackagesAfter, AddCpus, ConnectAll, SeenAll;
    var start := StartTree(cfg, allCpus, found);
    StartBare(cfg, allCpus, found);
    AddCpusTraced(start, cfg, rs);
    var tr := AddCpus(start, cfg, rs);
    ConnectAllAfter(tr, |tr.packages|);
  }

  /** The built tree is well linked whatever the reports say. */
  lemma BuildShaped(cfg: Config, allCpus: set<nat>, found: seq<(nat, set<nat>)>, rs: seq<Report>)
    ensures Shaped(ToTopo(Build(cfg, allCpus, found, rs), cfg))
  {
    hide Finished, Build, ToTopo, Shaped;
    BuildFinished(cfg, allCpus, found, rs);
    var start := StartTree(cfg, allCpus, found);
    FinishedShaped(Build(cfg, allCpus, found, rs), AddCpus(start, cfg, rs), cfg, SeenAll(start, cfg, rs));
  }

  /**
   For every order of consistent reports, the CPUs of the tree are the unbanned reported ones, and
   following children links from the nodes reaches each of them exactly once.
   */
  lemma BuildReachesOnce(cfg: Config, allCpus: set<nat>, found: seq<(nat, set<nat>)>, rs: seq<Report>)
    requires ConsistentReports(StartTree(cfg, allCpus, found), cfg, rs)
    ensures
      var t := ToTopo(Build(cfg, allCpus, found, rs), cfg);
      && TreeBelow(t) && CpusReached(t)
      && |t.cpus| == |Unbanned(cfg, rs)|
      && (forall k :: 0 <= k < |t.cpus| ==> t.cpus[k] in t.at && t.at[t.cpus[k]].number == Unbanned(cfg, rs)[k])
      && forall o :: o in t.cpus ==> ReachedOnce(t, o)
  {
    hide Finished, Consistent, Flat, Build, ToTopo, Shaped, ReachedOnce, ConsistentReports, Reach;
    var start := StartTree(cfg, allCpus, found);
    var tr, r, seen := AddCpus(start, cfg, rs), Build(cfg, allCpus, found, rs), SeenAll(start, cfg, rs);
    BuildFinished(cfg, allCpus, found, rs);
    ReportsConsistent(start, cfg, rs);
    ReportsFlat(start, cfg, rs);
    SoundTree(r, tr, cfg, seen);
    SoundReached(r, tr, cfg, seen);
    AddCpusNumbers(start, cfg, rs);
    CpusOf(r, tr, cfg, seen);
    var t := ToTopo(r, cfg);
    forall o | o in t.cpus
      ensures ReachedOnce(t, o)
    {
      CpuListed(t, o);
      OncePath(t, o);
    }
  }

  lemma CpuListed(t: Topo, o: ObjId)
    requires Shaped(t) && o in t.cpus
    ensures o in t.at && t.at[o].kind == Cpu
  {
  }

  lemma CpusOf(r: Tree, tr: Tree, cfg: Config, seen: seq<Seen>)
    requires Finished(r, tr, cfg, seen)
    ensures
      var t := ToTopo(r, cfg);
      |t.cpus| == |tr.cpus| && forall k :: 0 <= k < |tr.cpus| ==> t.cpus[k] in t.at && t.at[t.cpus[k]].number == tr.cpus[k].number
  {
    hide NodesAfter, Traced;
    var t := ToTopo(r, cfg);
    forall k | 0 <= k < |tr.cpus|
      ensures t.cpus[k] in t.at && t.at[t.cpus[k]].number == tr.cpus[k].number
    {
      TopoAt(r, cfg, t.cpus[k]);
    }
  }
}
