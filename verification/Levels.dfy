/** Where placement puts an interrupt: under its preferred node, at the object type of its level. */
module Levels {
  import opened Topology
  import opened Irqs
  import opened Invariant
  import opened Placement

  /** Interrupt i went from h to a child of h, or stayed because no child of h can be chosen. */
  ghost predicate WentDown(t: Topo, s: State, r: State, h: ObjId, i: IrqId) {
    && i in s.irq && i in r.irq && h in t.at && r.irq[i].moved && r.irq[i].level == s.irq[i].level
    && r.irq[i].home.Some?
    && (r.irq[i].home.value in t.at[h].children || (r.irq[i].home == Some(h) && AllClosed(t, r, t.at[h].children)))
  }

  /** No object of the list can be chosen. */
  ghost predicate AllClosed(t: Topo, s: State, cs: seq<ObjId>) {
    forall c :: c in cs ==> c in t.at && c in s.obj && !Eligible(t, s, c)
  }

  lemma PlaceIrqGoes(t: Topo, s: State, d: ObjId, i: IrqId)
    requires Basic(t, s) && Linked(s) && d in t.at && i in s.irq && s.irq[i].home == Some(d)
    requires s.irq[i].moved && !StaysAt(t.at[d].kind, s.irq[i].level)
    ensures WentDown(t, s, PlaceIrq(t, s, d, i), d, i)
  {
    hide MigrateObj, FindBest, Owned, Movable, Eligible, Shaped;
    KidsKnown(t, d);
    var cs := t.at[d].children;
    var b := FindBest(t, s, cs);
    if b.Some? {
      MovedIsBalanced(s, i);
      InDb(s, i);
      OwnedMovable(s, i);
      MovableMeans(s, i);
      MigrateFound(s, Some(d), b, i);
    } else {
      forall c | c in cs
        ensures !Eligible(t, s, c)
      {
        if Eligible(t, s, c) { FindBestIsMinimal(t, s, cs, c); }
      }
    }
  }

  /** A child that cannot be chosen is not chosen, so it stays that way. */
  lemma ClosedStays(t: Topo, s: State, d: ObjId, i: IrqId, c: ObjId)
    requires Basic(t, s) && Placed(t, s) && Linked(s) && d in t.at && i in s.irq && s.irq[i].home == Some(d)
    requires t.at[d].kind != Cpu && c in t.at && !Eligible(t, s, c)
    ensures !Eligible(t, PlaceIrq(t, s, d, i), c)
  {
    hide MigrateObj, FindBest, Owned, Placed, Usable, Shaped;
    KidsKnown(t, d);
    var r := PlaceIrq(t, s, d, i);
    if r != s {
      var b := FindBest(t, s, t.at[d].children);
      assert b.Some? && b.value != c;
      assert HomeKnown(s, i);
      HomeUnlimited(t, s, d, i);
      MigrateSpares(s, Some(d), b, i, c);
    }
  }

  lemma HomeUnlimited(t: Topo, s: State, d: ObjId, i: IrqId)
    requires Fits(t, s) && Placed(t, s) && d in t.at && i in s.irq && s.irq[i].home == Some(d) && t.at[d].kind != Cpu
    ensures s.obj[d].slots == INT_MAX
  {
    hide Shaped, Reach;
  }

  lemma MigrateSpares(s: State, from: Option<ObjId>, to: Option<ObjId>, i: IrqId, c: ObjId)
    requires HomeKnown(s, i) && (from.Some? ==> from.value in s.obj) && (to.Some? ==> to.value in s.obj)
    requires c in s.obj && to != Some(c) && from.Some? && s.obj[from.value].slots == INT_MAX
    ensures
      var r := MigrateObj(s, from, to, i);
      c in r.obj && r.obj[c].slots == s.obj[c].slots && r.obj[c].powersave == s.obj[c].powersave
  {
    hide Drop;
  }

  lemma {:induction false} AllClosedStays(t: Topo, s: State, d: ObjId, list: seq<IrqId>, cs: seq<ObjId>)
    requires Basic(t, s) && Placed(t, s) && Linked(s) && d in t.at && AllAt(s, list, d) && NoDup(list)
    requires t.at[d].kind != Cpu && AllClosed(t, s, cs)
    ensures AllClosed(t, PlaceIrqs(t, s, d, list), cs)
    decreases |list|
  {
    hide Kept, PlaceIrq, Owned, Shaped, Eligible, Placed;
    if |list| > 0 {
      var init, i := list[..|list| - 1], list[|list| - 1];
      assert i !in init;
      AllClosedStays(t, s, d, init, cs);
      PlaceIrqsKept(t, s, d, init);
      var r := PlaceIrqs(t, s, d, init);
      KeptAll(t, s, r);
      forall c | c in cs
        ensures !Eligible(t, PlaceIrq(t, r, d, i), c)
      {
        ClosedStays(t, r, d, i, c);
      }
    }
  }

  lemma KeptAll(t: Topo, s: State, r: State)
    requires Kept(t, s, r)
    ensures Basic(t, r) && r.irq.Keys == s.irq.Keys && r.obj.Keys == t.at.Keys
    ensures Placed(t, s) ==> Placed(t, r)
  {
    hide Owned, Reach, Unused, SlotsOk, HomesReached;
  }

  /** Every interrupt of the list goes down. */
  lemma {:induction false} PlaceIrqsGo(t: Topo, s: State, d: ObjId, list: seq<IrqId>, i: IrqId)
    requires Basic(t, s) && Placed(t, s) && Linked(s) && d in t.at && AllAt(s, list, d) && NoDup(list)
    requires t.at[d].kind != Cpu && i in list && i in s.irq && s.irq[i].moved && !StaysAt(t.at[d].kind, s.irq[i].level)
    ensures WentDown(t, s, PlaceIrqs(t, s, d, list), d, i)
    decreases |list|
  {
    hide Kept, PlaceIrq, Owned, Shaped, Eligible, Placed;
    var init, j := list[..|list| - 1], list[|list| - 1];
    assert j !in init;
    PlaceIrqsKept(t, s, d, init);
    var r := PlaceIrqs(t, s, d, init);
    KeptAll(t, s, r);
    if i == j {
      PlaceIrqGoes(t, r, d, i);
    } else {
      assert i in init;
      PlaceIrqsGo(t, s, d, init, i);
      PlaceIrqKept(t, r, d, j);
      if r.irq[i].home == Some(d) && AllClosed(t, r, t.at[d].children) {
        forall c | c in t.at[d].children
          ensures c in t.at && c in PlaceIrq(t, r, d, j).obj && !Eligible(t, PlaceIrq(t, r, d, j), c)
        {
          ClosedStays(t, r, d, j, c);
        }
      }
    }
  }

  /** An interrupt whose home is not in the list is left alone by the pass; so is one that stays at its level. */
  lemma PlaceObjOther(t: Topo, s: State, d: ObjId, i: IrqId)
    requires Basic(t, s) && d in t.at && i in s.irq
    ensures s.irq[i].home != Some(d) ==> PlaceObj(t, s, d).irq[i] == s.irq[i]
    ensures s.irq[i].home == Some(d) && StaysAt(t.at[d].kind, s.irq[i].level) ==> PlaceObj(t, s, d).irq[i] == s.irq[i]
  {
    hide PlaceIrqs, Owned, Shaped, Kept;
    OwnedLists(s);
    PlaceIrqsKept(t, s, d, s.obj[d].irqs);
    if s.irq[i].home == Some(d) && StaysAt(t.at[d].kind, s.irq[i].level) {
      PlaceIrqsStay(t, s, d, s.obj[d].irqs, i);
    }
  }

  lemma {:induction false} PlaceIrqsStay(t: Topo, s: State, d: ObjId, list: seq<IrqId>, i: IrqId)
    requires Basic(t, s) && Linked(s) && d in t.at && AllAt(s, list, d) && NoDup(list)
    requires i in s.irq && StaysAt(t.at[d].kind, s.irq[i].level)
    ensures PlaceIrqs(t, s, d, list).irq[i] == s.irq[i]
    decreases |list|
  {
    hide Kept, Owned, Shaped, MigrateObj, FindBest;
    if |list| > 0 {
      var init, j := list[..|list| - 1], list[|list| - 1];
      assert j !in init;
      PlaceIrqsStay(t, s, d, init, i);
      PlaceIrqsKept(t, s, d, init);
      var r := PlaceIrqs(t, s, d, init);
      KeptMeans(t, s, r);
      PlaceIrqKept(t, r, d, j);
    }
  }

  /** One pass over all objects of a kind. */
  lemma {:induction false} PassGoes(t: Topo, s: State, list: seq<ObjId>, k: Kind, h: ObjId, i: IrqId)
    requires Basic(t, s) && Placed(t, s) && NoDup(list) && k != Cpu
    requires forall d :: d in list ==> d in t.at && t.at[d].kind == k
    requires h in t.at && t.at[h].kind == k && i in s.irq && s.irq[i].home == Some(h) && s.irq[i].moved
    requires !StaysAt(k, s.irq[i].level)
    ensures
      var r := PlaceObjs(t, s, list);
      if h in list then WentDown(t, s, r, h, i) else i in r.irq && r.irq[i] == s.irq[i]
    decreases |list|
  {
    hide Kept, PlaceIrqs, Owned, Shaped, Eligible, Placed;
    if |list| > 0 {
      var init, d := list[..|list| - 1], list[|list| - 1];
      assert d !in init;
      PassGoes(t, s, init, k, h, i);
      var q := PlaceObjs(t, s, init);
      KeptAll(t, s, q);
      OwnedLists(q);
      if d == h {
        PlaceIrqsGo(t, q, d, q.obj[d].irqs, i) by {
          ListedAtHome(q, i, d);
        }
      } else {
        if h in init { ChildNotKind(t, h, k); }
        PlaceObjOther(t, q, d, i);
        if h in init && q.irq[i].home == Some(h) && AllClosed(t, q, t.at[h].children) {
          AllClosedStays(t, q, d, q.obj[d].irqs, t.at[h].children);
        }
      }
    }
  }

  lemma ListedAtHome(s: State, i: IrqId, d: ObjId)
    requires Owned(s) && i in s.irq && s.irq[i].home == Some(d) && d in s.obj
    ensures i in s.obj[d].irqs
  {
    assert i in s.db;
    assert FoundAt(s, i, Some(d));
  }

  lemma ChildNotKind(t: Topo, h: ObjId, k: Kind)
    requires Shaped(t) && h in t.at && t.at[h].kind == k
    ensures forall c :: c in t.at[h].children ==> c in t.at && t.at[c].kind != k
  {
  }

  lemma {:induction false} PassLeaves(t: Topo, s: State, list: seq<ObjId>, i: IrqId)
    requires Basic(t, s) && (forall d :: d in list ==> d in t.at) && i in s.irq
    requires forall d :: d in list && s.irq[i].home == Some(d) ==> StaysAt(t.at[d].kind, s.irq[i].level)
    ensures i in PlaceObjs(t, s, list).irq && PlaceObjs(t, s, list).irq[i] == s.irq[i]
    decreases |list|
  {
    hide Kept, PlaceIrqs, Owned, Shaped;
    if |list| > 0 {
      var init, d := list[..|list| - 1], list[|list| - 1];
      PassLeaves(t, s, init, i);
      var q := PlaceObjs(t, s, init);
      KeptMeans(t, s, q);
      PlaceObjOther(t, q, d, i);
    }
  }

  // ---- layered trees

  /** The node can receive interrupts. */
  predicate OpenNode(t: Topo, n: ObjId)
    requires n in t.at
  {
    (t.at[n].number != NUMA_NO_NODE || !t.numaAvail) && Usable(t, n)
  }

  /** What may hang below what: a cache stands in a package, or below a node when its package is split over nodes. */
  predicate MayHold(above: Kind, below: Kind) {
    match above
    case Node => below == Package || below == Cache
    case Package => below == Cache
    case Cache => below == Cpu
    case Cpu => false
  }

  /** The trees the builder makes: nodes over packages or caches, packages over caches, caches over CPUs; only nodes may be empty. */
  ghost predicate Layered(t: Topo) {
    && Shaped(t)
    && (forall o, c :: o in t.at && c in t.at[o].children ==> c in t.at && MayHold(t.at[o].kind, t.at[c].kind))
    && (forall o :: o in t.at && (t.at[o].kind == Package || t.at[o].kind == Cache) ==> t.at[o].children != [])
  }

  /** Packages and caches can always be chosen, so from a non-empty node or package the interrupt moves on. */
  lemma InnerGoes(t: Topo, s: State, r: State, h: ObjId, i: IrqId)
    requires Layered(t) && Placed(t, r) && WentDown(t, s, r, h, i)
    requires h in Reach(t) && t.at[h].children != [] && (t.at[h].kind == Node || t.at[h].kind == Package)
    ensures r.irq[i].home.value in t.at[h].children
  {
    hide Reach, Unused, HomesReached, Shaped;
    var c := t.at[h].children[0];
    assert c in t.at[h].children;
    assert t.at[c].kind == Package || t.at[c].kind == Cache;
    ReachChild(t, h, c);
  }

  /** The object type of the interrupt's level, or a cache all of whose CPUs are closed for a core-level interrupt. */
  ghost predicate AtLevel(t: Topo, r: State, i: IrqId) {
    && i in r.irq && r.irq[i].home.Some? && r.irq[i].home.value in t.at
    && var h := r.irq[i].home.value;
       match r.irq[i].level
       case NoBalance => false
       case PackageLevel => t.at[h].kind == Package
       case CacheLevel => t.at[h].kind == Cache
       case CoreLevel => t.at[h].kind == Cpu || (t.at[h].kind == Cache && AllClosed(t, r, t.at[h].children))
  }

  /** A cache-level interrupt stays at the cache; any other goes to a CPU, or stays because all CPUs are closed. */
  ghost predicate EndsAtCache(t: Topo, r: State, i: IrqId, c: ObjId) {
    && i in r.irq && r.irq[i].home.Some? && c in t.at && t.at[c].kind == Cache
    && if r.irq[i].level == CacheLevel then r.irq[i].home == Some(c)
       else r.irq[i].home.value in t.at[c].children || (r.irq[i].home == Some(c) && AllClosed(t, r, t.at[c].children))
  }

  ghost predicate EndsAtPackage(t: Topo, r: State, i: IrqId, p: ObjId) {
    && i in r.irq && p in t.at && t.at[p].kind == Package
    && if r.irq[i].level == PackageLevel then r.irq[i].home == Some(p)
       else exists c :: c in t.at[p].children && EndsAtCache(t, r, i, c)
  }

  /** Where an interrupt given to node n ends: on an empty node, or by way of one of its packages or caches. */
  ghost predicate EndsAtNode(t: Topo, r: State, i: IrqId, n: ObjId) {
    && i in r.irq && n in t.at && t.at[n].kind == Node
    && if t.at[n].children == [] then r.irq[i].home == Some(n)
       else exists p :: p in t.at[n].children && (EndsAtPackage(t, r, i, p) || EndsAtCache(t, r, i, p))
  }

  /** What the passes need to know about the object lists. */
  lemma ListKinds(t: Topo)
    requires Shaped(t)
    ensures NoDup(t.nodes) && NoDup(t.packages) && NoDup(t.caches)
    ensures forall d :: d in t.nodes <==> d in t.at && t.at[d].kind == Node
    ensures forall d :: d in t.packages <==> d in t.at && t.at[d].kind == Package
    ensures forall d :: d in t.caches <==> d in t.at && t.at[d].kind == Cache
  {
    hide NoDup;
  }

  lemma KindBelow(t: Topo, o: ObjId, c: ObjId)
    requires Layered(t) && o in t.at && c in t.at[o].children
    ensures c in t.at && MayHold(t.at[o].kind, t.at[c].kind)
    ensures t.at[c].kind == Package || t.at[c].kind == Cache ==> t.at[c].children != []
  {
    hide Shaped;
  }

  /** The pass over caches, for an interrupt that has come to cache c. */
  lemma FromCache(t: Topo, s: State, c: ObjId, i: IrqId)
    requires Basic(t, s) && Placed(t, s) && c in t.at && t.at[c].kind == Cache
    requires i in s.irq && s.irq[i].home == Some(c) && s.irq[i].moved && s.irq[i].level != NoBalance
    ensures forall d :: d in t.caches ==> d in t.at
    ensures EndsAtCache(t, PlaceObjs(t, s, t.caches), i, c)
  {
    hide Kept, PlaceObjs, Owned, Placed, AllClosed, Shaped;
    ListKinds(t);
    if s.irq[i].level == CacheLevel {
      PassLeaves(t, s, t.caches, i);
    } else {
      PassGoes(t, s, t.caches, Cache, c, i);
    }
  }

  /** The passes over packages and caches. */
  ghost function TwoPasses(t: Topo, s: State): (r: State)
    requires Basic(t, s)
    ensures Kept(t, s, r)
  {
    TreeLists(t);
    var q := PlaceObjs(t, s, t.packages);
    KeptMeans(t, s, q);
    var r := PlaceObjs(t, q, t.caches);
    KeptTrans(t, s, q, r);
    r
  }

  /** The passes over nodes, packages and caches. */
  ghost function ThreePasses(t: Topo, s: State): (r: State)
    requires Basic(t, s)
    ensures Kept(t, s, r)
  {
    TreeLists(t);
    var q := PlaceObjs(t, s, t.nodes);
    KeptMeans(t, s, q);
    var r := TwoPasses(t, q);
    KeptTrans(t, s, q, r);
    r
  }

  /** The passes over packages and caches, for an interrupt that has come to package p. */
  lemma FromPackage(t: Topo, s: State, p: ObjId, i: IrqId)
    requires Basic(t, s) && Placed(t, s) && Layered(t) && p in t.at && t.at[p].kind == Package && p in Reach(t)
    requires i in s.irq && s.irq[i].home == Some(p) && s.irq[i].moved && s.irq[i].level != NoBalance
    requires t.at[p].children != []
    ensures EndsAtPackage(t, TwoPasses(t, s), i, p)
  {
    hide Kept, PlaceObjs, Owned, Placed, AllClosed, Shaped, Layered, Reach, EndsAtCache;
    ListKinds(t);
    var s3 := PlaceObjs(t, s, t.packages);
    KeptAll(t, s, s3);
    if s.irq[i].level == PackageLevel {
      PassLeaves(t, s, t.packages, i);
      PassLeaves(t, s3, t.caches, i);
    } else {
      PassGoes(t, s, t.packages, Package, p, i);
      InnerGoes(t, s, s3, p, i);
      var c := s3.irq[i].home.value;
      KindBelow(t, p, c);
      FromCache(t, s3, c, i);
      EndsLevel(t, s3, t.caches, i);
    }
  }

  /** Passes do not change the level. */
  lemma {:induction false} EndsLevel(t: Topo, s: State, list: seq<ObjId>, i: IrqId)
    requires Basic(t, s) && (forall d :: d in list ==> d in t.at) && i in s.irq && s.irq[i].level != NoBalance
    ensures i in PlaceObjs(t, s, list).irq && PlaceObjs(t, s, list).irq[i].level == s.irq[i].level
    decreases |list|
  {
    hide Kept, Owned, Shaped, PlaceIrqs;
    if |list| > 0 {
      EndsLevel(t, s, list[..|list| - 1], i);
      var q := PlaceObjs(t, s, list[..|list| - 1]);
      KeptMeans(t, s, q);
      OwnedLists(q);
      PlaceIrqsLevel(t, q, list[|list| - 1], q.obj[list[|list| - 1]].irqs, i);
    }
  }

  lemma {:induction false} PlaceIrqsLevel(t: Topo, s: State, d: ObjId, list: seq<IrqId>, i: IrqId)
    requires Basic(t, s) && Linked(s) && d in t.at && AllAt(s, list, d) && NoDup(list) && i in s.irq
    ensures i in PlaceIrqs(t, s, d, list).irq && PlaceIrqs(t, s, d, list).irq[i].level == s.irq[i].level
    decreases |list|
  {
    hide Kept, Owned, Shaped, PlaceIrq;
    if |list| > 0 {
      var init, j := list[..|list| - 1], list[|list| - 1];
      assert j !in init;
      PlaceIrqsLevel(t, s, d, init, i);
      PlaceIrqsKept(t, s, d, init);
      var r := PlaceIrqs(t, s, d, init);
      KeptMeans(t, s, r);
      PlaceIrqKept(t, r, d, j);
    }
  }

  /** The passes over packages and caches, for an interrupt that has come to cache c below a node. */
  lemma PastPackages(t: Topo, s: State, c: ObjId, i: IrqId)
    requires Basic(t, s) && Placed(t, s) && c in t.at && t.at[c].kind == Cache
    requires i in s.irq && s.irq[i].home == Some(c) && s.irq[i].moved && s.irq[i].level != NoBalance
    ensures EndsAtCache(t, TwoPasses(t, s), i, c)
  {
    hide Kept, PlaceObjs, Owned, Placed, Shaped, EndsAtCache;
    ListKinds(t);
    var q := PlaceObjs(t, s, t.packages);
    KeptAll(t, s, q);
    PassLeaves(t, s, t.packages, i);
    FromCache(t, q, c, i);
  }

  lemma StaysOnNode(t: Topo, s: State, i: IrqId)
    requires Basic(t, s) && i in s.irq
    requires s.irq[i].home.Some? ==> s.irq[i].home.value in t.at && t.at[s.irq[i].home.value].kind == Node
    ensures i in TwoPasses(t, s).irq && TwoPasses(t, s).irq[i] == s.irq[i]
  {
    hide Kept, PlaceObjs, Owned, Shaped;
    ListKinds(t);
    var q := PlaceObjs(t, s, t.packages);
    KeptMeans(t, s, q);
    PassLeaves(t, s, t.packages, i);
    PassLeaves(t, q, t.caches, i);
  }

  /** From a node downwards: where the three passes bring the interrupt. */
  lemma DownFromNode(t: Topo, s: State, n: ObjId, i: IrqId)
    requires Basic(t, s) && Placed(t, s) && Layered(t) && n in t.nodes && n in t.at
    requires i in s.irq && s.irq[i].home == Some(n) && s.irq[i].moved && s.irq[i].level != NoBalance
    ensures EndsAtNode(t, ThreePasses(t, s), i, n)
  {
    hide Kept, PlaceObjs, Owned, Placed, AllClosed, Shaped, Layered, Reach, EndsAtCache, EndsAtPackage, TwoPasses;
    ListKinds(t);
    var q := PlaceObjs(t, s, t.nodes);
    KeptAll(t, s, q);
    PassGoes(t, s, t.nodes, Node, n, i);
    if t.at[n].children == [] {
      StaysOnNode(t, q, i);
    } else {
      ReachNode(t, n);
      InnerGoes(t, s, q, n, i);
      var p := q.irq[i].home.value;
      KindBelow(t, n, p);
      ReachChild(t, n, p);
      if t.at[p].kind == Package { FromPackage(t, q, p, i); } else { PastPackages(t, q, p, i); }
      KeptAll(t, q, TwoPasses(t, q));
    }
  }

  // ---- what that means

  /** The interrupt ends below the node it was given to. */
  lemma EndsBelow(t: Topo, r: State, i: IrqId, n: ObjId)
    requires Shaped(t) && EndsAtNode(t, r, i, n)
    ensures i in r.irq && r.irq[i].home.Some? && r.irq[i].home.value in Desc(t, n)
  {
    hide Shaped, Desc, AllClosed;
    DescStart(t, n);
    if t.at[n].children != [] {
      var p :| p in t.at[n].children && (EndsAtPackage(t, r, i, p) || EndsAtCache(t, r, i, p));
      DescClosed(t, n, n, p);
      if EndsAtCache(t, r, i, p) {
        CacheBelow(t, r, i, n, p);
      } else if r.irq[i].level != PackageLevel {
        var c :| c in t.at[p].children && EndsAtCache(t, r, i, c);
        DescClosed(t, n, p, c);
        CacheBelow(t, r, i, n, c);
      }
    }
  }

  lemma CacheBelow(t: Topo, r: State, i: IrqId, n: ObjId, c: ObjId)
    requires Shaped(t) && n in t.at && c in Desc(t, n) && EndsAtCache(t, r, i, c)
    ensures r.irq[i].home.value in Desc(t, n)
  {
    hide Shaped, Desc, AllClosed;
    if r.irq[i].home.value in t.at[c].children { DescClosed(t, n, c, r.irq[i].home.value); }
  }

  /** All children of n are of one kind. */
  ghost predicate AllOf(t: Topo, n: ObjId, k: Kind)
    requires n in t.at
  {
    forall c :: c in t.at[n].children ==> c in t.at && t.at[c].kind == k
  }

  /** The interrupt went from node n by way of its child p. */
  ghost predicate WentBy(t: Topo, r: State, i: IrqId, n: ObjId, p: ObjId)
    requires n in t.at
  {
    p in t.at[n].children && (EndsAtPackage(t, r, i, p) || EndsAtCache(t, r, i, p))
  }

  /** By whichever child it went, the level is met if and only if the level is not package or that child is a package. */
  lemma LevelMetBy(t: Topo, r: State, i: IrqId, n: ObjId, p: ObjId)
    requires Layered(t) && n in t.at && WentBy(t, r, i, n, p) && i in r.irq && r.irq[i].level != NoBalance
    ensures p in t.at && (AtLevel(t, r, i) <==> r.irq[i].level != PackageLevel || t.at[p].kind == Package)
  {
    hide Shaped, AllClosed;
    if EndsAtCache(t, r, i, p) {
      CacheKinds(t, r, i, p);
    } else if r.irq[i].level != PackageLevel {
      var c :| c in t.at[p].children && EndsAtCache(t, r, i, c);
      CacheKinds(t, r, i, c);
    }
  }

  /**
   Exactly when the level is met. At an empty node, never. Else the interrupt went by some child of the node, and
   for every child it may have gone by: always except at package level, and there if and only if the child is a
   package. So below a node with packages only it is met, and below one with caches only (its packages are split
   over nodes) it is met except at package level.
   */
  lemma LevelMetExactly(t: Topo, r: State, i: IrqId, n: ObjId)
    requires Layered(t) && EndsAtNode(t, r, i, n) && r.irq[i].level != NoBalance
    ensures t.at[n].children == [] ==> !AtLevel(t, r, i)
    ensures t.at[n].children != [] ==> exists p :: WentBy(t, r, i, n, p)
    ensures forall p :: WentBy(t, r, i, n, p) ==>
      p in t.at && (AtLevel(t, r, i) <==> r.irq[i].level != PackageLevel || t.at[p].kind == Package)
    ensures AllOf(t, n, Package) || AllOf(t, n, Cache) ==>
      (AtLevel(t, r, i) <==> t.at[n].children != [] && (r.irq[i].level != PackageLevel || AllOf(t, n, Package)))
  {
    hide Shaped, AllClosed, EndsAtCache, EndsAtPackage, Layered;
    forall p | WentBy(t, r, i, n, p)
      ensures p in t.at && (AtLevel(t, r, i) <==> r.irq[i].level != PackageLevel || t.at[p].kind == Package)
    {
      LevelMetBy(t, r, i, n, p);
    }
    if t.at[n].children != [] {
      var p :| p in t.at[n].children && (EndsAtPackage(t, r, i, p) || EndsAtCache(t, r, i, p));
      assert WentBy(t, r, i, n, p);
    }
  }

  /** What kind of object the interrupt is on after its cache. */
  lemma CacheKinds(t: Topo, r: State, i: IrqId, c: ObjId)
    requires Layered(t) && EndsAtCache(t, r, i, c)
    ensures
      var h := r.irq[i].home.value;
      && h in t.at
      && if r.irq[i].level == CacheLevel then t.at[h].kind == Cache
         else t.at[h].kind == Cpu || (t.at[h].kind == Cache && AllClosed(t, r, t.at[h].children))
  {
    hide Shaped, AllClosed;
    if r.irq[i].home.value in t.at[c].children { KindBelow(t, c, r.irq[i].home.value); }
  }

  lemma DescStart(t: Topo, n: ObjId)
    requires Shaped(t) && n in t.at
    ensures n in Desc(t, n)
  {
  }

  /** No node can receive interrupts. */
  ghost predicate NoOpenNode(t: Topo) {
    forall n :: n in t.nodes ==> n in t.at && !OpenNode(t, n)
  }

  /** The node chosen for a waiting interrupt. */
  ghost predicate NodeChoice(t: Topo, s: State, i: IrqId, n: ObjId)
    requires i in s.irq
  {
    && n in t.nodes && n in t.at && OpenNode(t, n)
    && (s.irq[i].node in t.at && OpenNode(t, s.irq[i].node) ==> n == s.irq[i].node)
  }

  /** place_irq_in_node: the preferred node if it can receive interrupts, else some node that can; else it waits on. */
  lemma PlaceInNodeChooses(t: Topo, s: State, i: IrqId)
    requires Basic(t, s) && Placed(t, s) && Linked(s) && i in s.irq && s.irq[i].home == None && s.irq[i].level != NoBalance
    ensures
      var r := PlaceInNode(t, s, i);
      && i in r.irq && r.irq[i].level == s.irq[i].level && r.irq[i].node == s.irq[i].node
      && match r.irq[i].home
         case Some(n) => r.irq[i].moved && NodeChoice(t, s, i, n)
         case None => r.irq[i] == s.irq[i] && NoOpenNode(t)
  {
    hide MigrateObj, FindBest, Owned, Movable, Usable, Reach, Unused, HomesReached;
    InDb(s, i);
    OwnedMovable(s, i);
    MovableMeans(s, i);
    var n := s.irq[i].node;
    if OpenNode(t, n) {
      MigrateFound(s, None, Some(n), i);
    } else {
      var b := FindBest(t, s, t.nodes);
      if b.Some? {
        MigrateFound(s, None, b, i);
      } else {
        forall m | m in t.nodes
          ensures m in t.at && !OpenNode(t, m)
        {
          ReachNode(t, m);
          if OpenNode(t, m) { FindBestIsMinimal(t, s, t.nodes, m); }
        }
      }
    }
  }

  lemma {:induction false} PlaceInNodesChoose(t: Topo, s: State, list: seq<IrqId>, i: IrqId)
    requires Basic(t, s) && Placed(t, s) && Linked(s) && AllWaiting(s, list) && NoDup(list) && i in list && i in s.irq
    ensures
      var r := PlaceInNodes(t, s, list);
      && i in r.irq && r.irq[i].level == s.irq[i].level
      && match r.irq[i].home
         case Some(n) => r.irq[i].moved && NodeChoice(t, s, i, n)
         case None => r.irq[i] == s.irq[i] && NoOpenNode(t)
    decreases |list|
  {
    hide Kept, PlaceInNode, Owned, Shaped, OpenNode, Placed;
    var init, j := list[..|list| - 1], list[|list| - 1];
    assert j !in init;
    PlaceInNodesKept(t, s, init);
    var r := PlaceInNodes(t, s, init);
    KeptAll(t, s, r);
    if i == j {
      PlaceInNodeChooses(t, r, i);
    } else {
      PlaceInNodesChoose(t, s, init, i);
      PlaceInNodeKept(t, r, j);
    }
  }

  /**
   calculate_placement on every tree the builder makes: a waiting interrupt goes to its preferred node whenever
   that one can receive interrupts, else to one that can, and on to where EndsAtNode says; it goes on waiting
   exactly when no node can receive interrupts.
   */
  lemma PlacementEnds(t: Topo, s: State, i: IrqId)
    requires Basic(t, s) && Placed(t, s) && Layered(t) && i in s.rebalance
    ensures i in s.irq
    ensures
      var r := CalculatePlacement(t, s);
      && i in r.irq
      && (r.irq[i].home.None? <==> NoOpenNode(t))
      && (r.irq[i].home.Some? ==>
            exists n :: NodeChoice(t, s, i, n) && EndsAtNode(t, r, i, n) && r.irq[i].home.value in Desc(t, n))
  {
    hide Kept, ThreePasses, PlaceInNodes, CalculatePlacement, Owned, Placed, Desc, Sort, OpenNode, EndsAtNode, Shaped, Layered, NoDup;
    PlacementStages(t, s);
    var s0 := s.(rebalance := Sort(s, s.rebalance));
    KeptAll(t, s, s0);
    PlaceInNodesChoose(t, s0, s0.rebalance, i);
    var s1 := PlaceInNodes(t, s0, s0.rebalance);
    KeptAll(t, s0, s1);
    if s1.irq[i].home.Some? {
      var n := s1.irq[i].home.value;
      assert NodeChoice(t, s, i, n);
      BalancedWaits(s0, i);
      DownFromNode(t, s1, n, i);
      EndsBelow(t, CalculatePlacement(t, s), i, n);
      SomeOpen(t, n);
    } else {
      WaitsOn(t, s1, i);
    }
  }

  lemma BalancedWaits(s: State, i: IrqId)
    requires AllWaiting(s, s.rebalance) && i in s.rebalance
    ensures i in s.irq && s.irq[i].level != NoBalance
  {
  }

  lemma SomeOpen(t: Topo, n: ObjId)
    requires n in t.nodes && n in t.at && OpenNode(t, n)
    ensures !NoOpenNode(t)
  {
  }

  /** Nodes hold packages only, and no node that can receive interrupts is empty. */
  ghost predicate FourLevels(t: Topo) {
    Layered(t) && forall n :: n in t.nodes && n in t.at ==> AllOf(t, n, Package) && (OpenNode(t, n) ==> t.at[n].children != [])
  }

  /** Hence on the plain four-level tree every waiting interrupt ends at its level. */
  lemma PlacementReachesLevel(t: Topo, s: State, i: IrqId)
    requires Basic(t, s) && Placed(t, s) && FourLevels(t) && i in s.rebalance
    ensures i in s.irq
    ensures
      var r := CalculatePlacement(t, s);
      && i in r.irq
      && (r.irq[i].home.None? <==> NoOpenNode(t))
      && (r.irq[i].home.Some? ==>
            AtLevel(t, r, i) && exists n :: NodeChoice(t, s, i, n) && r.irq[i].home.value in Desc(t, n))
  {
    hide CalculatePlacement, Owned, Placed, Desc, OpenNode, EndsAtNode, Shaped, Layered, AtLevel, AllOf;
    PlacementEnds(t, s, i);
    var r := CalculatePlacement(t, s);
    if r.irq[i].home.Some? {
      var n :| NodeChoice(t, s, i, n) && EndsAtNode(t, r, i, n) && r.irq[i].home.value in Desc(t, n);
      PlacementLevel(t, s, i);
      LevelMetExactly(t, r, i, n);
    }
  }

  /** A waiting interrupt is balanced, and placement does not change its level. */
  lemma PlacementLevel(t: Topo, s: State, i: IrqId)
    requires Basic(t, s) && i in s.rebalance
    ensures i in s.irq && s.irq[i].level != NoBalance
    ensures i in CalculatePlacement(t, s).irq && CalculatePlacement(t, s).irq[i].level == s.irq[i].level
  {
    hide Kept, PlaceObjs, PlaceInNodes, CalculatePlacement, Owned, Sort, Shaped, NoDup;
    PlacementStages(t, s);
    var s0 := s.(rebalance := Sort(s, s.rebalance));
    BalancedWaits(s0, i);
    PlaceInNodesLevel(t, s0, s0.rebalance, i);
    var s1 := PlaceInNodes(t, s0, s0.rebalance);
    TreeLists(t);
    EndsLevel(t, s1, t.nodes, i);
    var s2 := PlaceObjs(t, s1, t.nodes);
    KeptMeans(t, s1, s2);
    EndsLevel(t, s2, t.packages, i);
    var s3 := PlaceObjs(t, s2, t.packages);
    KeptMeans(t, s2, s3);
    EndsLevel(t, s3, t.caches, i);
  }

  lemma {:induction false} PlaceInNodesLevel(t: Topo, s: State, list: seq<IrqId>, i: IrqId)
    requires Basic(t, s) && Linked(s) && AllWaiting(s, list) && NoDup(list) && i in s.irq
    ensures i in PlaceInNodes(t, s, list).irq && PlaceInNodes(t, s, list).irq[i].level == s.irq[i].level
    decreases |list|
  {
    hide Kept, PlaceInNode, Owned, Shaped;
    if |list| > 0 {
      var init, j := list[..|list| - 1], list[|list| - 1];
      assert j !in init;
      PlaceInNodesLevel(t, s, init, i);
      PlaceInNodesKept(t, s, init);
      var r := PlaceInNodes(t, s, init);
      KeptMeans(t, s, r);
      PlaceInNodeKept(t, r, j);
    }
  }

  lemma WaitsOn(t: Topo, s: State, i: IrqId)
    requires Basic(t, s) && i in s.irq && s.irq[i].home == None
    ensures i in ThreePasses(t, s).irq && ThreePasses(t, s).irq[i] == s.irq[i]
  {
    hide Kept, PlaceObjs, Owned, Shaped, TwoPasses;
    ListKinds(t);
    var q := PlaceObjs(t, s, t.nodes);
    KeptMeans(t, s, q);
    PassLeaves(t, s, t.nodes, i);
    StaysOnNode(t, q, i);
  }

  /** calculate_placement in two parts. */
  lemma PlacementStages(t: Topo, s: State)
    requires Basic(t, s) && s.rebalance != []
    ensures
      && (forall x :: x in s.rebalance ==> x in s.irq)
      && var s0 := s.(rebalance := Sort(s, s.rebalance));
         && Kept(t, s, s0) && Basic(t, s0) && Linked(s0) && AllWaiting(s0, s0.rebalance) && NoDup(s0.rebalance)
         && (forall x :: x in s0.rebalance <==> x in s.rebalance)
         && var s1 := PlaceInNodes(t, s0, s0.rebalance);
            Kept(t, s0, s1) && Basic(t, s1) && CalculatePlacement(t, s) == ThreePasses(t, s1)
  {
    hide Kept, PlaceObjs, PlaceInNodes, Owned, Shaped, Sort, NoDup;
    OwnedLists(s);
    SortKept(t, s);
    var s0 := s.(rebalance := Sort(s, s.rebalance));
    KeptMeans(t, s, s0);
    OwnedLists(s0);
    PlaceInNodesKept(t, s0, s0.rebalance);
    KeptMeans(t, s0, PlaceInNodes(t, s0, s0.rebalance));
    SortLength(s, s.rebalance);
  }

  lemma SortLength(s: State, l: seq<IrqId>)
    requires forall x :: x in l ==> x in s.irq
    ensures |Sort(s, l)| == |l|
  {
    hide Sort;
    assert |multiset(Sort(s, l))| == |multiset(l)|;
  }
}
