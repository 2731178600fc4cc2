/** The built tree is well linked, and consistent reports make every CPU reachable along exactly one path. */
module TreeProof {
  import opened Topology
  import opened CpuTree

  // ---- grouping by mask, the pattern of both cache domains and packages

  /** One contribution to a list of groups: the group's mask, the child, and the node it reports. */
  datatype Item = Item(mask: set<nat>, child: nat, node: Option<nat>)

  ghost predicate Distinct(gs: seq<Group>) {
    forall i, j :: 0 <= i < j < |gs| ==> gs[i].mask != gs[j].mask
  }

  /** The item's group holds its child and node. */
  ghost predicate Filed(gs: seq<Group>, it: Item, j: nat) {
    j < |gs| && gs[j].mask == it.mask && it.child in gs[j].children && (it.node.Some? ==> it.node.value in gs[j].nodes)
  }

  ghost predicate From(it: Item, g: Group) { it.mask == g.mask }

  /** Every item is in the group of its mask. */
  ghost predicate AllFiled(gs: seq<Group>, items: seq<Item>) {
    forall i :: 0 <= i < |items| ==> InSome(gs, items[i])
  }

  ghost predicate InSome(gs: seq<Group>, it: Item) { exists j :: Filed(gs, it, j) }

  /** Every child and every node of a group comes from some item, and no group is empty. */
  ghost predicate KidsFrom(gs: seq<Group>, items: seq<Item>) {
    forall j, x :: 0 <= j < |gs| && x in gs[j].children ==>
      exists i :: 0 <= i < |items| && From(items[i], gs[j]) && items[i].child == x
  }

  ghost predicate NodesFrom(gs: seq<Group>, items: seq<Item>) {
    forall j, n :: 0 <= j < |gs| && n in gs[j].nodes ==>
      exists i :: 0 <= i < |items| && From(items[i], gs[j]) && items[i].node == Some(n)
  }

  ghost predicate NoneEmpty(gs: seq<Group>, items: seq<Item>) {
    forall j :: 0 <= j < |gs| ==> exists i :: 0 <= i < |items| && From(items[i], gs[j])
  }

  ghost predicate NoRepeats(gs: seq<Group>) {
    forall j :: 0 <= j < |gs| ==> NoDup(gs[j].children) && NoDup(gs[j].nodes)
  }

  ghost predicate Grouped(gs: seq<Group>, items: seq<Item>) {
    Distinct(gs) && AllFiled(gs, items) && KidsFrom(gs, items) && NodesFrom(gs, items) && NoneEmpty(gs, items) && NoRepeats(gs)
  }

  /** hs is gs with one more item filed in group j. */
  ghost predicate FiledIn(gs: seq<Group>, hs: seq<Group>, j: nat, it: Item) {
    && j == FindMask(gs, it.mask) && |hs| == (if j == |gs| then |gs| + 1 else |gs|)
    && (forall i :: 0 <= i < |gs| && i != j ==> hs[i].mask == gs[i].mask && hs[i].children == gs[i].children && hs[i].nodes == gs[i].nodes)
    && hs[j].mask == it.mask
    && hs[j].children == AddUnique(if j < |gs| then gs[j].children else [], it.child)
    && hs[j].nodes == AddNode(if j < |gs| then gs[j].nodes else [], it.node)
  }

  lemma AddUniqueElems<T>(l: seq<T>, x: T)
    ensures forall y :: y in AddUnique(l, x) <==> y in l || y == x
    ensures NoDup(l) ==> NoDup(AddUnique(l, x))
  {
  }

  /** The group an item is filed in, element by element. */
  lemma FiledElems(gs: seq<Group>, hs: seq<Group>, j: nat, it: Item)
    requires FiledIn(gs, hs, j, it)
    ensures j < |hs|
    ensures forall x :: x in hs[j].children <==> (j < |gs| && x in gs[j].children) || x == it.child
    ensures forall n :: n in hs[j].nodes <==> (j < |gs| && n in gs[j].nodes) || it.node == Some(n)
  {
    hide FindMask;
  }

  lemma FileAll(gs: seq<Group>, hs: seq<Group>, j: nat, items: seq<Item>, it: Item)
    requires AllFiled(gs, items) && FiledIn(gs, hs, j, it)
    ensures AllFiled(hs, items + [it])
  {
    hide FindMask, AddUnique, AddNode;
    FiledElems(gs, hs, j, it);
    var all := items + [it];
    forall i | 0 <= i < |all|
      ensures InSome(hs, all[i])
    {
      if i < |items| {
        assert InSome(gs, items[i]);
        var g :| Filed(gs, items[i], g);
        assert Filed(hs, all[i], g);
      } else {
        assert Filed(hs, all[i], j);
      }
    }
  }

  lemma FileKids(gs: seq<Group>, hs: seq<Group>, j: nat, items: seq<Item>, it: Item)
    requires KidsFrom(gs, items) && FiledIn(gs, hs, j, it)
    ensures KidsFrom(hs, items + [it])
  {
    hide FindMask, AddUnique, AddNode;
    FiledElems(gs, hs, j, it);
    var all := items + [it];
    forall g, x | 0 <= g < |hs| && x in hs[g].children
      ensures exists i :: 0 <= i < |all| && From(all[i], hs[g]) && all[i].child == x
    {
      if g == j && x == it.child {
        assert From(all[|items|], hs[g]);
      } else {
        var i :| 0 <= i < |items| && From(items[i], gs[g]) && items[i].child == x;
        assert From(all[i], hs[g]);
      }
    }
  }

  lemma FileNodes(gs: seq<Group>, hs: seq<Group>, j: nat, items: seq<Item>, it: Item)
    requires NodesFrom(gs, items) && NoneEmpty(gs, items) && FiledIn(gs, hs, j, it)
    ensures NodesFrom(hs, items + [it]) && NoneEmpty(hs, items + [it])
  {
    hide FindMask, AddUnique, AddNode;
    FiledElems(gs, hs, j, it);
    var all := items + [it];
    forall g, n | 0 <= g < |hs| && n in hs[g].nodes
      ensures exists i :: 0 <= i < |all| && From(all[i], hs[g]) && all[i].node == Some(n)
    {
      if g == j && it.node == Some(n) {
        assert From(all[|items|], hs[g]);
      } else {
        var i :| 0 <= i < |items| && From(items[i], gs[g]) && items[i].node == Some(n);
        assert From(all[i], hs[g]);
      }
    }
    forall g | 0 <= g < |hs|
      ensures exists i :: 0 <= i < |all| && From(all[i], hs[g])
    {
      if g == j {
        assert From(all[|items|], hs[g]);
      } else {
        var i :| 0 <= i < |items| && From(items[i], gs[g]);
        assert From(all[i], hs[g]);
      }
    }
  }

  lemma FileNoRepeats(gs: seq<Group>, hs: seq<Group>, j: nat, it: Item)
    requires NoRepeats(gs) && FiledIn(gs, hs, j, it)
    ensures NoRepeats(hs)
  {
    hide FindMask, AddUnique, NoDup;
    NoDupNil();
    AddUniqueElems(if j < |gs| then gs[j].children else [], it.child);
    if it.node.Some? { AddUniqueElems(if j < |gs| then gs[j].nodes else [], it.node.value); }
  }

  lemma FileKeeps(gs: seq<Group>, hs: seq<Group>, j: nat, items: seq<Item>, it: Item)
    requires Grouped(gs, items) && FiledIn(gs, hs, j, it)
    ensures Grouped(hs, items + [it])
  {
    hide Distinct, AllFiled, KidsFrom, NodesFrom, NoneEmpty, NoRepeats, FiledIn;
    FileDistinct(gs, hs, j, it);
    FileAll(gs, hs, j, items, it);
    FileKids(gs, hs, j, items, it);
    FileNodes(gs, hs, j, items, it);
    FileNoRepeats(gs, hs, j, it);
  }

  lemma FileDistinct(gs: seq<Group>, hs: seq<Group>, j: nat, it: Item)
    requires Distinct(gs) && FiledIn(gs, hs, j, it)
    ensures Distinct(hs)
  {
    hide AddUnique;
    forall a, b | 0 <= a < b < |hs|
      ensures hs[a].mask != hs[b].mask
    {
      if j == |gs| && b == j { assert gs[a].mask != it.mask; }
      if j < |gs| { assert hs[j].mask == gs[j].mask; }
    }
  }

  // ---- the state while CPUs are added

  /** What each added CPU reported: masked cache and package, known node. */
  datatype Seen = Seen(cm: set<nat>, pm: set<nat>, node: Option<nat>)

  ghost function CacheItems(seen: seq<Seen>): seq<Item> {
    seq(|seen|, k requires 0 <= k < |seen| => Item(seen[k].cm, k, seen[k].node))
  }

  ghost function PackageItems(tr: Tree, seen: seq<Seen>): seq<Item>
    requires |seen| == |tr.cpus|
  {
    seq(|seen|, k requires 0 <= k < |seen| => Item(seen[k].pm, tr.cpus[k].parent, seen[k].node))
  }

  /** Parent links name a group that lists the child. */
  ghost predicate Parents(tr: Tree) {
    && (forall c :: 0 <= c < |tr.caches| ==>
          tr.caches[c].parent.Some? && tr.caches[c].parent.value < |tr.packages| &&
          c in tr.packages[tr.caches[c].parent.value].children)
    && (forall p :: 0 <= p < |tr.packages| && tr.packages[p].parent.Some? ==>
          tr.packages[p].parent.value < |tr.nodes| && PackageRef(p) in tr.nodes[tr.packages[p].parent.value].children)
  }

  /** Children of nodes exist and are not repeated. */
  ghost predicate Refs(tr: Tree) {
    && (forall n :: 0 <= n < |tr.nodes| ==> NoDup(tr.nodes[n].children))
    && (forall n, x :: 0 <= n < |tr.nodes| && x in tr.nodes[n].children ==>
          match x case PackageRef(p) => p < |tr.packages| case CacheRef(c) => c < |tr.caches|)
  }

  /** Each CPU names the cache of its mask and is not banned. */
  ghost predicate CpuLinks(tr: Tree, cfg: Config, seen: seq<Seen>) {
    && |seen| == |tr.cpus|
    && (forall k :: 0 <= k < |tr.cpus| ==> tr.cpus[k].parent < |tr.caches| && tr.cpus[k].number !in cfg.banned)
    && (forall k :: 0 <= k < |tr.cpus| ==> tr.cpus[k].parent < |tr.caches| && tr.caches[tr.cpus[k].parent].mask == seen[k].cm)
    && (forall k :: 0 <= k < |seen| && seen[k].node.Some? ==> seen[k].node.value < |tr.nodes|)
  }

  /** Without NUMA a package hangs exactly below the nodes it reports; with NUMA nothing hangs yet. */
  ghost predicate HangsRight(tr: Tree, cfg: Config, n: nat, x: Ref) {
    !cfg.numaAvail && x.PackageRef? && x.p < |tr.packages| && n in tr.packages[x.p].nodes
  }

  ghost predicate HungBelow(tr: Tree, p: nat, n: nat) {
    n < |tr.nodes| && PackageRef(p) in tr.nodes[n].children
  }

  ghost predicate Hung(tr: Tree, cfg: Config) {
    && (forall n, x :: 0 <= n < |tr.nodes| && x in tr.nodes[n].children ==> HangsRight(tr, cfg, n, x))
    && (!cfg.numaAvail ==> forall p, n :: 0 <= p < |tr.packages| && n in tr.packages[p].nodes ==> HungBelow(tr, p, n))
  }

  ghost predicate Traced(tr: Tree, cfg: Config, seen: seq<Seen>) {
    && |seen| == |tr.cpus| && |tr.nodes| > 0
    && CpuLinks(tr, cfg, seen)
    && Grouped(tr.caches, CacheItems(seen)) && Grouped(tr.packages, PackageItems(tr, seen))
    && Parents(tr) && Refs(tr) && Hung(tr, cfg)
  }

  ghost function SeenOf(tr: Tree, cfg: Config, r: Report): Seen {
    Seen(r.cacheMask - cfg.banned, PackageMask(tr, cfg, r), KnownNode(tr, cfg, r.nodeId))
  }

  lemma AddCpuGroups(tr: Tree, cfg: Config, r: Report)
    requires r.number !in cfg.banned
    ensures
      var q := AddCpu(tr, cfg, r);
      var x := SeenOf(tr, cfg, r);
      var c, p := FindMask(tr.caches, x.cm), FindMask(tr.packages, x.pm);
      && q.cpus == tr.cpus + [CpuRec(r.number, c)]
      && FiledIn(tr.caches, q.caches, c, Item(x.cm, |tr.cpus|, x.node))
      && FiledIn(tr.packages, q.packages, p, Item(x.pm, c, x.node))
      && |q.nodes| == |tr.nodes|
  {
    hide FindMask, AddUnique, KnownNode, PackageMask, AddNode;
  }

  lemma AddCpuGrouped(tr: Tree, cfg: Config, r: Report, seen: seq<Seen>)
    requires Traced(tr, cfg, seen) && r.number !in cfg.banned
    ensures
      var q := AddCpu(tr, cfg, r);
      var all := seen + [SeenOf(tr, cfg, r)];
      && |all| == |q.cpus|
      && Grouped(q.caches, CacheItems(all)) && Grouped(q.packages, PackageItems(q, all))
  {
    hide Grouped, FindMask, Refs, Parents, AddCpu, Hung, CpuLinks, FiledIn, SeenOf;
    var q := AddCpu(tr, cfg, r);
    var x := SeenOf(tr, cfg, r);
    var all := seen + [x];
    var c, p := FindMask(tr.caches, x.cm), FindMask(tr.packages, x.pm);
    AddCpuGroups(tr, cfg, r);
    FileKeeps(tr.caches, q.caches, c, CacheItems(seen), Item(x.cm, |tr.cpus|, x.node));
    assert CacheItems(all) == CacheItems(seen) + [Item(x.cm, |tr.cpus|, x.node)];
    FileKeeps(tr.packages, q.packages, p, PackageItems(tr, seen), Item(x.pm, c, x.node));
    assert PackageItems(q, all) == PackageItems(tr, seen) + [Item(x.pm, c, x.node)];
  }

  lemma AddCpuLinks(tr: Tree, cfg: Config, r: Report, seen: seq<Seen>)
    requires Traced(tr, cfg, seen) && r.number !in cfg.banned
    ensures CpuLinks(AddCpu(tr, cfg, r), cfg, seen + [SeenOf(tr, cfg, r)])
  {
    hide Grouped, FindMask, Refs, Parents, AddCpu, Hung, AddUnique, AddNode, PackageMask;
    var q := AddCpu(tr, cfg, r);
    AddCpuGroups(tr, cfg, r);
    assert forall j :: 0 <= j < |tr.caches| ==> j < |q.caches| && q.caches[j].mask == tr.caches[j].mask;
  }

  /** Children listed by the groups exist. */
  lemma KidsInRange(tr: Tree, cfg: Config, seen: seq<Seen>)
    requires Traced(tr, cfg, seen)
    ensures forall c, k :: 0 <= c < |tr.caches| && k in tr.caches[c].children ==> k < |tr.cpus| && tr.cpus[k].parent == c
    ensures forall p, c :: 0 <= p < |tr.packages| && c in tr.packages[p].children ==> c < |tr.caches|
  {
    forall c, k | 0 <= c < |tr.caches| && k in tr.caches[c].children
      ensures k < |tr.cpus| && tr.cpus[k].parent == c
    {
      CacheKid(tr, cfg, seen, c, k);
    }
    forall p, c | 0 <= p < |tr.packages| && c in tr.packages[p].children
      ensures c < |tr.caches|
    {
      var k := PackageKid(tr, cfg, seen, p, c);
    }
  }

  lemma CacheKid(tr: Tree, cfg: Config, seen: seq<Seen>, c: nat, k: nat)
    requires Traced(tr, cfg, seen) && c < |tr.caches| && k in tr.caches[c].children
    ensures k < |tr.cpus| && tr.cpus[k].parent == c
  {
    hide Refs, Parents, Hung, NoRepeats, NodesFrom, NoneEmpty, AllFiled, Distinct;
    var items := CacheItems(seen);
    var i :| 0 <= i < |items| && From(items[i], tr.caches[c]) && items[i].child == k;
    SameMask(tr.caches, tr.cpus[k].parent, c);
  }

  /** A cache of a package was reported with that package's mask by one of its CPUs. */
  lemma PackageKid(tr: Tree, cfg: Config, seen: seq<Seen>, p: nat, c: nat) returns (k: nat)
    requires Traced(tr, cfg, seen) && p < |tr.packages| && c in tr.packages[p].children
    ensures c < |tr.caches| && k < |seen| && tr.cpus[k].parent == c
    ensures seen[k].pm == tr.packages[p].mask && seen[k].cm == tr.caches[c].mask
  {
    hide Refs, Parents, Hung, NoRepeats, NodesFrom, NoneEmpty, AllFiled, Distinct;
    var items := PackageItems(tr, seen);
    k :| 0 <= k < |items| && From(items[k], tr.packages[p]) && items[k].child == c;
  }

  lemma SameMask(gs: seq<Group>, a: nat, b: nat)
    requires Distinct(gs) && a < |gs| && b < |gs| && gs[a].mask == gs[b].mask
    ensures a == b
  {
  }

  lemma AddCpuParents(tr: Tree, cfg: Config, r: Report, seen: seq<Seen>)
    requires Traced(tr, cfg, seen) && r.number !in cfg.banned
    ensures Parents(AddCpu(tr, cfg, r))
  {
    hide Grouped, FindMask, PackageMask, KnownNode, Refs, Hung, CpuLinks, AddCpu, AddUnique;
    KidsInRange(tr, cfg, seen);
    var q := AddCpu(tr, cfg, r);
    var x := SeenOf(tr, cfg, r);
    var c, p := FindMask(tr.caches, x.cm), FindMask(tr.packages, x.pm);
    AddCpuGroups(tr, cfg, r);
    AddCpuNodes(tr, cfg, r);
    AddCpuParentLinks(tr, cfg, r);
    FiledElems(tr.packages, q.packages, p, Item(x.pm, c, x.node));
    forall j | 0 <= j < |q.packages| && q.packages[j].parent.Some?
      ensures q.packages[j].parent.value < |q.nodes| && PackageRef(j) in q.nodes[q.packages[j].parent.value].children
    {
      if x.node.Some? { AddUniqueElems(tr.nodes[x.node.value].children, PackageRef(p)); }
    }
  }

  /** What AddCpu does to parent links. */
  lemma AddCpuParentLinks(tr: Tree, cfg: Config, r: Report)
    requires r.number !in cfg.banned
    ensures
      var q := AddCpu(tr, cfg, r);
      var x := SeenOf(tr, cfg, r);
      var c, p := FindMask(tr.caches, x.cm), FindMask(tr.packages, x.pm);
      var joined := p < |tr.packages| && c in tr.packages[p].children;
      && (forall j :: 0 <= j < |tr.caches| && j != c ==> q.caches[j].parent == tr.caches[j].parent)
      && (if joined then (c < |tr.caches| ==> q.caches[c].parent == tr.caches[c].parent) else q.caches[c].parent == Some(p))
      && (forall j :: 0 <= j < |tr.packages| && j != p ==> q.packages[j].parent == tr.packages[j].parent)
      && (q.packages[p].parent == (if p < |tr.packages| then tr.packages[p].parent else None)
          || (!cfg.numaAvail && x.node.Some? && q.packages[p].parent == x.node))
  {
    hide FindMask, PackageMask, AddUnique, AddNode, KnownNode;
  }

  lemma AddCpuRefs(tr: Tree, cfg: Config, r: Report, seen: seq<Seen>)
    requires Traced(tr, cfg, seen) && r.number !in cfg.banned
    ensures Refs(AddCpu(tr, cfg, r)) && Hung(AddCpu(tr, cfg, r), cfg)
  {
    hide Grouped, FindMask, PackageMask, KnownNode, CpuLinks, Parents, NoDup, AddCpu;
    var q := AddCpu(tr, cfg, r);
    var x := SeenOf(tr, cfg, r);
    var p := FindMask(tr.packages, x.pm);
    AddCpuGroups(tr, cfg, r);
    AddCpuNodes(tr, cfg, r);
    FiledElems(tr.packages, q.packages, p, Item(x.pm, FindMask(tr.caches, x.cm), x.node));
    if x.node.Some? { AppendRef(tr.nodes[x.node.value].children, PackageRef(p)); }
    assert Refs(q);
    forall n, y | 0 <= n < |q.nodes| && y in q.nodes[n].children
      ensures HangsRight(q, cfg, n, y)
    {
      if y in tr.nodes[n].children { assert HangsRight(tr, cfg, n, y); }
    }
    if !cfg.numaAvail {
      forall g, n | 0 <= g < |q.packages| && n in q.packages[g].nodes
        ensures HungBelow(q, g, n)
      {
        if !(g == p && x.node == Some(n)) { assert HungBelow(tr, g, n); }
      }
    }
  }

  /** What AddCpu does to the nodes. */
  lemma AddCpuNodes(tr: Tree, cfg: Config, r: Report)
    requires r.number !in cfg.banned
    ensures
      var q := AddCpu(tr, cfg, r);
      var x := SeenOf(tr, cfg, r);
      var p := FindMask(tr.packages, x.pm);
      && (x.node.Some? ==> x.node.value < |tr.nodes|) && |q.nodes| == |tr.nodes|
      && forall n :: 0 <= n < |tr.nodes| ==>
           q.nodes[n].children == if !cfg.numaAvail && x.node == Some(n) then AddUnique(tr.nodes[n].children, PackageRef(p))
                                  else tr.nodes[n].children
  {
    hide FindMask, PackageMask, JoinCache, JoinPackage, WithGroup;
  }

  lemma AppendRef(l: seq<Ref>, x: Ref)
    requires NoDup(l)
    ensures x !in l ==> NoDup(l + [x])
    ensures forall y :: y in l + [x] <==> y in l || y == x
  {
  }

  lemma AddCpuTraced(tr: Tree, cfg: Config, r: Report, seen: seq<Seen>)
    requires Traced(tr, cfg, seen)
    ensures Traced(AddCpu(tr, cfg, r), cfg, if r.number in cfg.banned then seen else seen + [SeenOf(tr, cfg, r)])
  {
    hide Grouped, Refs, Parents, Hung, CpuLinks, AddCpu, SeenOf;
    if r.number in cfg.banned {
      AddBanned(tr, cfg, r);
    } else {
      AddCpuGroups(tr, cfg, r);
      AddCpuGrouped(tr, cfg, r, seen);
      AddCpuLinks(tr, cfg, r, seen);
      AddCpuParents(tr, cfg, r, seen);
      AddCpuRefs(tr, cfg, r, seen);
    }
  }

  lemma AddBanned(tr: Tree, cfg: Config, r: Report)
    requires r.number in cfg.banned
    ensures AddCpu(tr, cfg, r) == tr
  {
  }

  // ---- all reports

  /** Node numbers and masks do not change while CPUs are added. */
  ghost predicate SameNodes(tr: Tree, q: Tree) {
    |q.nodes| == |tr.nodes| &&
    forall n :: 0 <= n < |tr.nodes| ==> q.nodes[n].number == tr.nodes[n].number && q.nodes[n].mask == tr.nodes[n].mask
  }

  lemma {:induction false} SameFrom(tr: Tree, q: Tree, id: int, k: nat)
    requires SameNodes(tr, q) && k <= |tr.nodes|
    ensures NodeFrom(q.nodes, id, k) == NodeFrom(tr.nodes, id, k)
    decreases |tr.nodes| - k
  {
    if k < |tr.nodes| { SameFrom(tr, q, id, k + 1); }
  }

  lemma SameSeen(tr: Tree, q: Tree, cfg: Config, r: Report)
    requires SameNodes(tr, q)
    ensures SeenOf(q, cfg, r) == SeenOf(tr, cfg, r)
  {
    hide NodeFrom;
    SameFrom(tr, q, if cfg.numaAvail then r.nodeId else NUMA_NO_NODE, 0);
  }

  ghost function SeenAll(tr: Tree, cfg: Config, rs: seq<Report>): seq<Seen> {
    if |rs| == 0 then []
    else
      SeenAll(tr, cfg, rs[..|rs| - 1])
      + if rs[|rs| - 1].number in cfg.banned then [] else [SeenOf(tr, cfg, rs[|rs| - 1])]
  }

  ghost predicate Bare(tr: Tree) {
    tr.packages == [] && tr.caches == [] && tr.cpus == [] && |tr.nodes| > 0 &&
    forall n :: 0 <= n < |tr.nodes| ==> tr.nodes[n].children == []
  }

  lemma {:induction false} AddCpusTraced(tr: Tree, cfg: Config, rs: seq<Report>)
    requires Bare(tr)
    ensures Traced(AddCpus(tr, cfg, rs), cfg, SeenAll(tr, cfg, rs)) && SameNodes(tr, AddCpus(tr, cfg, rs))
    decreases |rs|
  {
    hide AddCpu, Traced, SeenOf;
    if |rs| == 0 {
      BareTraced(tr, cfg);
    } else {
      var init, r := rs[..|rs| - 1], rs[|rs| - 1];
      AddCpusTraced(tr, cfg, init);
      var q := AddCpus(tr, cfg, init);
      AddCpuTraced(q, cfg, r, SeenAll(tr, cfg, init));
      SameSeen(tr, q, cfg, r);
      AddCpuSameNodes(q, cfg, r);
      assert r.number in cfg.banned ==> SeenAll(tr, cfg, rs) == SeenAll(tr, cfg, init);
    }
  }

  lemma BareTraced(tr: Tree, cfg: Config)
    requires Bare(tr)
    ensures Traced(tr, cfg, [])
  {
  }

  lemma AddCpuSameNodes(tr: Tree, cfg: Config, r: Report)
    ensures SameNodes(tr, AddCpu(tr, cfg, r))
  {
    hide FindMask, PackageMask, JoinCache, JoinPackage, WithGroup;
  }

  // ---- what consistent reports give

  /** Equal masked cache masks imply equal package masks and equal, known nodes. */
  ghost predicate Consistent(seen: seq<Seen>) {
    && (forall j, k :: 0 <= j < |seen| && 0 <= k < |seen| && seen[j].cm == seen[k].cm ==> seen[j] == seen[k])
    && (forall k :: 0 <= k < |seen| ==> seen[k].node.Some?)
  }

  /** A cache belongs to one package only. */
  lemma OnePackage(tr: Tree, cfg: Config, seen: seq<Seen>, c: nat, p: nat, q: nat)
    requires Traced(tr, cfg, seen) && Consistent(seen) && p < |tr.packages| && q < |tr.packages|
    requires c in tr.packages[p].children && c in tr.packages[q].children
    ensures p == q
  {
    hide Parents, Refs, Hung, CpuLinks, AllFiled, KidsFrom, NodesFrom, NoneEmpty, NoRepeats;
    var j := PackageKid(tr, cfg, seen, p, c);
    var k := PackageKid(tr, cfg, seen, q, c);
    assert seen[j] == seen[k];
    SameMask(tr.packages, p, q);
  }

  /** Some item of a group, with its child and node filed there. */
  lemma ItemOf(gs: seq<Group>, items: seq<Item>, j: nat) returns (i: nat)
    requires Grouped(gs, items) && j < |gs|
    ensures i < |items| && Filed(gs, items[i], j)
  {
    hide KidsFrom, NodesFrom, NoRepeats;
    assert NoneEmpty(gs, items);
    var k :| 0 <= k < |items| && From(items[k], gs[j]);
    i := k;
    assert InSome(gs, items[i]);
    var g :| Filed(gs, items[i], g);
    SameMask(gs, g, j);
  }

  lemma NodeItem(gs: seq<Group>, items: seq<Item>, j: nat, n: nat) returns (i: nat)
    requires Grouped(gs, items) && j < |gs| && n in gs[j].nodes
    ensures i < |items| && items[i].mask == gs[j].mask && items[i].node == Some(n)
  {
    hide KidsFrom, AllFiled, NoRepeats, NoneEmpty, Distinct;
    assert NodesFrom(gs, items);
    var k :| 0 <= k < |items| && From(items[k], gs[j]) && items[k].node == Some(n);
    i := k;
  }

  /** A cache reports exactly one node. */
  lemma OneNode(tr: Tree, cfg: Config, seen: seq<Seen>, c: nat)
    requires Traced(tr, cfg, seen) && Consistent(seen) && c < |tr.caches|
    ensures |tr.caches[c].nodes| == 1 && tr.caches[c].nodes[0] < |tr.nodes|
    ensures tr.caches[c].children != []
  {
    hide Parents, Refs, Hung, Grouped;
    var items := CacheItems(seen);
    var ns := tr.caches[c].nodes;
    var i := ItemOf(tr.caches, items, c);
    var n := seen[i].node.value;
    forall x | x in ns
      ensures x == n
    {
      var k := NodeItem(tr.caches, items, c, x);
      assert seen[k].cm == seen[i].cm;
    }
    GroupNoDup(tr.caches, items, c);
    OnlyElement(ns, n);
  }

  lemma GroupNoDup(gs: seq<Group>, items: seq<Item>, j: nat)
    requires Grouped(gs, items) && j < |gs|
    ensures NoDup(gs[j].nodes) && NoDup(gs[j].children)
  {
    hide KidsFrom, NodesFrom, AllFiled, NoneEmpty, Distinct, NoDup;
  }

  lemma OnlyElement(l: seq<nat>, n: nat)
    requires NoDup(l) && n in l && forall x :: x in l ==> x == n
    ensures l == [n]
  {
    var last := |l| - 1;
    assert l[0] in l && l[last] in l;
    assert l[0] == l[last];
  }

  /** A package reports some node and holds some cache. */
  lemma SomeNode(tr: Tree, cfg: Config, seen: seq<Seen>, p: nat)
    requires Traced(tr, cfg, seen) && Consistent(seen) && p < |tr.packages|
    ensures |tr.packages[p].nodes| >= 1 && tr.packages[p].children != []
  {
    hide Parents, Refs, Hung, Grouped, CpuLinks;
    var i := ItemOf(tr.packages, PackageItems(tr, seen), p);
    assert seen[i].node.Some?;
  }

  lemma PackageNodes(tr: Tree, cfg: Config, seen: seq<Seen>, p: nat)
    requires Traced(tr, cfg, seen) && p < |tr.packages|
    ensures forall n :: n in tr.packages[p].nodes ==> n < |tr.nodes|
  {
    hide Parents, Refs, Hung, Grouped;
    forall n | n in tr.packages[p].nodes
      ensures n < |tr.nodes|
    {
      var k := NodeItem(tr.packages, PackageItems(tr, seen), p, n);
      assert seen[k].node == Some(n);
    }
  }

  // ---- connecting packages and caches to nodes

  /** x is attached to node n by the first m packages. */
  ghost predicate Attached(tr: Tree, m: nat, n: nat, x: Ref) {
    match x
    case PackageRef(p) => p < m && p < |tr.packages| && tr.packages[p].nodes == [n]
    case CacheRef(c) => exists p :: SplitOver(tr, m, p, c) && c < |tr.caches| && tr.caches[c].nodes == [n]
  }

  /** c is a cache of one of the first m packages, and that package spans several nodes. */
  ghost predicate SplitOver(tr: Tree, m: nat, p: nat, c: nat) {
    p < m && p < |tr.packages| && |tr.packages[p].nodes| > 1 && c in tr.packages[p].children
  }

  /** The nodes' children are those of tr plus what has been attached. */
  ghost predicate NodesAfter(tr: Tree, m: nat, r: Tree) {
    && |r.nodes| == |tr.nodes|
    && (forall n :: 0 <= n < |tr.nodes| ==>
          r.nodes[n].number == tr.nodes[n].number && r.nodes[n].mask == tr.nodes[n].mask &&
          (NoDup(tr.nodes[n].children) ==> NoDup(r.nodes[n].children)))
    && (forall n, x :: 0 <= n < |tr.nodes| ==>
          (x in r.nodes[n].children <==> x in tr.nodes[n].children || Attached(tr, m, n, x)))
  }

  ghost predicate PackagesAfter(tr: Tree, m: nat, r: Tree) {
    && r.caches == tr.caches && r.cpus == tr.cpus && |r.packages| == |tr.packages|
    && (forall p :: 0 <= p < |tr.packages| ==>
          r.packages[p] == tr.packages[p].(parent :=
            if p < m && |tr.packages[p].nodes| == 1 && tr.packages[p].parent.None? then Some(tr.packages[p].nodes[0])
            else tr.packages[p].parent))
  }

  lemma HangElems(nodes: seq<NodeRec>, n: nat, x: Ref, k: nat, y: Ref)
    requires k < |nodes|
    ensures y in Hang(nodes, n, x)[k].children <==> y in nodes[k].children || (k == n && y == x)
    ensures NoDup(nodes[k].children) ==> NoDup(Hang(nodes, n, x)[k].children)
    ensures Hang(nodes, n, x)[k].number == nodes[k].number && Hang(nodes, n, x)[k].mask == nodes[k].mask
  {
    hide NoDup;
    AddUniqueElems(nodes[k].children, x);
  }

  /** Hanging the caches of one package. */
  lemma {:induction false} ConnectCachesAfter(tr: Tree, cs: seq<nat>, n: nat, x: Ref)
    requires n < |tr.nodes|
    ensures
      var r := ConnectCaches(tr, cs);
      && r.nodes[n].number == tr.nodes[n].number && r.nodes[n].mask == tr.nodes[n].mask
      && (NoDup(tr.nodes[n].children) ==> NoDup(r.nodes[n].children))
      && (x in r.nodes[n].children <==>
            x in tr.nodes[n].children || (x.CacheRef? && x.c in cs && x.c < |tr.caches| && tr.caches[x.c].nodes == [n]))
    decreases |cs|
  {
    hide Hang, NoDup;
    if |cs| > 0 {
      var init, c := cs[..|cs| - 1], cs[|cs| - 1];
      ConnectCachesAfter(tr, init, n, x);
      var q := ConnectCaches(tr, init);
      assert cs == init + [c];
      assert forall y :: y in cs <==> y in init || y == c;
      if c < |tr.caches| && |tr.caches[c].nodes| == 1 {
        HangElems(q.nodes, tr.caches[c].nodes[0], CacheRef(c), n, x);
        assert tr.caches[c].nodes == [tr.caches[c].nodes[0]];
      }
    }
  }

  lemma {:induction false} ConnectAllAfter(tr: Tree, m: nat)
    requires m <= |tr.packages|
    ensures NodesAfter(tr, m, ConnectAll(tr, m)) && PackagesAfter(tr, m, ConnectAll(tr, m))
    decreases m
  {
    if m == 0 {
      assert forall n, x :: !Attached(tr, 0, n, x);
    } else {
      ConnectAllAfter(tr, m - 1);
      ConnectOne(tr, m, ConnectAll(tr, m - 1));
    }
  }

  lemma ConnectOne(tr: Tree, m: nat, q: Tree)
    requires 0 < m <= |tr.packages| && NodesAfter(tr, m - 1, q) && PackagesAfter(tr, m - 1, q)
    ensures NodesAfter(tr, m, ConnectPackage(q, m - 1)) && PackagesAfter(tr, m, ConnectPackage(q, m - 1))
  {
    hide NoDup, Attached, Hang, ConnectCaches;
    var p := m - 1;
    var g := q.packages[p];
    var r := ConnectPackage(q, p);
    assert PackagesAfter(tr, m, r);
    forall n | 0 <= n < |tr.nodes|
      ensures r.nodes[n].number == tr.nodes[n].number && r.nodes[n].mask == tr.nodes[n].mask
      ensures NoDup(tr.nodes[n].children) ==> NoDup(r.nodes[n].children)
    {
      ConnectOneNode(q, p, n, PackageRef(0));
    }
    forall n, x | 0 <= n < |tr.nodes|
      ensures x in r.nodes[n].children <==> x in tr.nodes[n].children || Attached(tr, m, n, x)
    {
      ConnectOneNode(q, p, n, x);
      AttachedStep(tr, m, n, x);
    }
  }

  lemma ConnectOneNode(q: Tree, p: nat, n: nat, x: Ref)
    requires p < |q.packages| && n < |q.nodes|
    ensures
      var r := ConnectPackage(q, p);
      var g := q.packages[p];
      && |r.nodes| == |q.nodes|
      && r.nodes[n].number == q.nodes[n].number && r.nodes[n].mask == q.nodes[n].mask
      && (NoDup(q.nodes[n].children) ==> NoDup(r.nodes[n].children))
      && (x in r.nodes[n].children <==>
            || x in q.nodes[n].children
            || (x == PackageRef(p) && g.nodes == [n])
            || (x.CacheRef? && |g.nodes| > 1 && x.c in g.children && x.c < |q.caches| && q.caches[x.c].nodes == [n]))
  {
    hide NoDup, Hang, ConnectCaches;
    var g := q.packages[p];
    if |g.nodes| > 1 {
      ConnectCachesAfter(q, g.children, n, x);
    } else if |g.nodes| == 1 {
      HangElems(q.nodes, g.nodes[0], PackageRef(p), n, x);
      assert g.nodes == [g.nodes[0]];
    }
  }

  lemma AttachedStep(tr: Tree, m: nat, n: nat, x: Ref)
    requires 0 < m <= |tr.packages|
    ensures
      var g := tr.packages[m - 1];
      Attached(tr, m, n, x) <==>
        || Attached(tr, m - 1, n, x)
        || (x == PackageRef(m - 1) && g.nodes == [n])
        || (x.CacheRef? && |g.nodes| > 1 && x.c in g.children && x.c < |tr.caches| && tr.caches[x.c].nodes == [n])
  {
    if x.CacheRef? {
      var c := x.c;
      if SplitOver(tr, m, m - 1, c) && c < |tr.caches| && tr.caches[c].nodes == [n] {
        assert Attached(tr, m, n, x);
      }
      if Attached(tr, m - 1, n, x) {
        var p: nat :| SplitOver(tr, m - 1, p, c) && c < |tr.caches| && tr.caches[c].nodes == [n];
        assert SplitOver(tr, m, p, c);
      }
      if Attached(tr, m, n, x) {
        var p: nat :| SplitOver(tr, m, p, c) && c < |tr.caches| && tr.caches[c].nodes == [n];
        if p < m - 1 { assert SplitOver(tr, m - 1, p, c); }
      }
    }
  }
}
