/** Greedy placement of waiting interrupts, level by level down the tree (placement.c). */
module Placement {
  import opened Topology
  import opened Irqs
  import opened Invariant

  const SLOTS_PENALTY_THRESHOLD := 10
  const SLOTS_PENALTY_FACTOR := 1000

  // ---- choosing an object

  /** The objects find_best_object does not skip. */
  predicate Eligible(t: Topo, s: State, d: ObjId)
    requires d in t.at && d in s.obj
  {
    && !(t.numaAvail && t.at[d].kind == Node && t.at[d].number == NUMA_NO_NODE)
    && !(t.at[d].kind == Node && !Usable(t, d))
    && !s.obj[d].powersave
    && s.obj[d].slots > 0
  }

  function Penalty(slots: int): int {
    if slots < SLOTS_PENALTY_THRESHOLD then (SLOTS_PENALTY_THRESHOLD - slots) * SLOTS_PENALTY_FACTOR else 0
  }

  function Cost(b: Obj): int { b.load + Penalty(b.slots) }

  /** d replaces the best object so far: lower cost, or more slots, or fewer interrupts. */
  predicate Better(d: Obj, best: Obj) {
    Cost(d) < Cost(best) ||
    (Cost(d) == Cost(best) &&
     (d.slots > best.slots || (d.slots == best.slots && |d.irqs| < |best.irqs|)))
  }

  /** The callback find_best_object over a list of objects. */
  function FindBest(t: Topo, s: State, list: seq<ObjId>): (r: Option<ObjId>)
    requires forall d :: d in list ==> d in t.at && d in s.obj
    ensures r.Some? ==> r.value in list && Eligible(t, s, r.value)
  {
    if |list| == 0 then None
    else
      var best := FindBest(t, s, list[..|list| - 1]);
      var d := list[|list| - 1];
      if Eligible(t, s, d) && (best.None? || Better(s.obj[d], s.obj[best.value])) then Some(d) else best
  }

  /** The choice is a minimum: no eligible object of the list is better, and none means none is eligible. */
  lemma {:induction false} FindBestIsMinimal(t: Topo, s: State, list: seq<ObjId>, d: ObjId)
    requires forall d :: d in list ==> d in t.at && d in s.obj
    requires d in list && Eligible(t, s, d)
    ensures
      var r := FindBest(t, s, list);
      r.Some? && !Better(s.obj[d], s.obj[r.value])
    decreases |list|
  {
    hide Eligible;
    var init, last := list[..|list| - 1], list[|list| - 1];
    if d in init {
      FindBestIsMinimal(t, s, init, d);
    }
  }

  // ---- moving one interrupt

  lemma KidsKnown(t: Topo, d: ObjId)
    requires Shaped(t) && d in t.at
    ensures forall c :: c in t.at[d].children ==> c in t.at
    ensures forall n :: n in t.nodes ==> n in t.at
  {
  }

  predicate StaysAt(k: Kind, l: Level) {
    match k
    case Node => l == NoBalance
    case Package => l == PackageLevel
    case Cache => l == CacheLevel
    case Cpu => l == CoreLevel
  }

  /** find_best_object_for_irq */
  function PlaceIrq(t: Topo, s: State, d: ObjId, i: IrqId): (r: State)
    requires Shaped(t) && s.obj.Keys == t.at.Keys && Linked(s) && i in s.irq && d in t.at
    ensures SameFrame(s, r)
  {
    if !s.irq[i].moved || StaysAt(t.at[d].kind, s.irq[i].level) then s
    else match FindBest(t, s, t.at[d].children)
      case None => s
      case Some(b) =>
        assert HomeKnown(s, i);
        FrameMigrate(s, Some(d), Some(b), i);
        MigrateObj(s, Some(d), Some(b), i)
  }

  /** The interrupts of `list` handled in order. */
  function PlaceIrqs(t: Topo, s: State, d: ObjId, list: seq<IrqId>): (r: State)
    requires Shaped(t) && s.obj.Keys == t.at.Keys && Linked(s) && d in t.at
    requires forall i :: i in list ==> i in s.irq
    ensures SameFrame(s, r)
  {
    if |list| == 0 then s
    else PlaceIrq(t, PlaceIrqs(t, s, d, list[..|list| - 1]), d, list[|list| - 1])
  }

  /** place_irq_in_node */
  function PlaceInNode(t: Topo, s: State, i: IrqId): (r: State)
    requires Shaped(t) && s.obj.Keys == t.at.Keys && Linked(s) && i in s.irq && s.irq[i].node in t.nodes
    ensures SameFrame(s, r)
  {
    var n := s.irq[i].node;
    assert HomeKnown(s, i);
    if s.irq[i].level == NoBalance && t.banned == {} then s
    else if (t.at[n].number != NUMA_NO_NODE || !t.numaAvail) && Usable(t, n) then
      FrameMigrate(s, None, Some(n), i);
      MigrateObj(s, None, Some(n), i)
    else match FindBest(t, s, t.nodes)
      case None => s
      case Some(b) =>
        FrameMigrate(s, None, Some(b), i);
        MigrateObj(s, None, Some(b), i)
  }

  /** The rebalance list handled in order. */
  function PlaceInNodes(t: Topo, s: State, list: seq<IrqId>): (r: State)
    requires Fits(t, s) && Linked(s) && forall i :: i in list ==> i in s.irq
    ensures SameFrame(s, r) && Fits(t, r)
  {
    if |list| == 0 then s
    else
      var r := PlaceInNodes(t, s, list[..|list| - 1]);
      PlaceInNodeFits(t, r, list[|list| - 1]);
      PlaceInNode(t, r, list[|list| - 1])
  }

  /** Moves change only `moved` and `home` of the interrupt moved. */
  ghost predicate OthersSame(s: State, r: State, i: IrqId) {
    && r.irq.Keys == s.irq.Keys
    && (forall x :: x in s.irq && x != i ==> r.irq[x] == s.irq[x])
    && (i in s.irq ==> r.irq[i] == s.irq[i].(moved := r.irq[i].moved, home := r.irq[i].home))
  }

  lemma MigrateOthers(s: State, from: Option<ObjId>, to: Option<ObjId>, i: IrqId)
    requires HomeKnown(s, i) && (from.Some? ==> from.value in s.obj) && (to.Some? ==> to.value in s.obj)
    ensures OthersSame(s, MigrateObj(s, from, to, i), i)
  {
    hide MigrateObj;
    MigrateRecord(s, from, to, i);
  }

  lemma PlaceInNodeFits(t: Topo, s: State, i: IrqId)
    requires Fits(t, s) && Linked(s) && i in s.irq
    ensures Fits(t, PlaceInNode(t, s, i)) && OthersSame(s, PlaceInNode(t, s, i), i)
  {
    hide MigrateObj, Shaped;
    assert HomeKnown(s, i);
    var n := s.irq[i].node;
    assert n in t.nodes;
    NodesInTree(t);
    MigrateOthers(s, None, Some(n), i);
    var b := FindBest(t, s, t.nodes);
    if b.Some? { MigrateOthers(s, None, b, i); }
  }

  lemma NodesInTree(t: Topo)
    requires Shaped(t)
    ensures forall n :: n in t.nodes ==> n in t.at && t.at[n].kind == Node
  {
  }

  // ---- the invariants are kept

  lemma PlaceIrqKept(t: Topo, s: State, d: ObjId, i: IrqId)
    requires Basic(t, s) && Linked(s) && d in t.at && i in s.irq && s.irq[i].home == Some(d)
    ensures Kept(t, s, PlaceIrq(t, s, d, i)) && OthersSame(s, PlaceIrq(t, s, d, i), i)
  {
    hide Kept, MigrateObj, FindBest, Owned, Reach, Movable, Shaped;
    KidsKnown(t, d);
    KeptRefl(t, s);
    if s.irq[i].moved && !StaysAt(t.at[d].kind, s.irq[i].level) {
      var b := FindBest(t, s, t.at[d].children);
      if b.Some? {
        assert s.irq[i].level != NoBalance && i in s.db by { MovedIsBalanced(s, i); InDb(s, i); }
        OwnedMovable(s, i);
        assert HomeKnown(s, i);
        if Placed(t, s) { ReachChild(t, d, b.value); }
        MigrateKept(t, s, Some(d), b, i);
        MigrateOthers(s, Some(d), b, i);
      }
    }
  }

  /** All interrupts of the list are at home at d. */
  ghost predicate AllAt(s: State, list: seq<IrqId>, d: ObjId) {
    forall i :: i in list ==> i in s.irq && s.irq[i].home == Some(d)
  }

  lemma {:induction false} PlaceIrqsKept(t: Topo, s: State, d: ObjId, list: seq<IrqId>)
    requires Basic(t, s) && Linked(s) && d in t.at && AllAt(s, list, d) && NoDup(list)
    ensures Kept(t, s, PlaceIrqs(t, s, d, list))
    ensures forall x :: x in s.irq && x !in list ==> PlaceIrqs(t, s, d, list).irq[x] == s.irq[x]
    decreases |list|
  {
    hide Kept, PlaceIrq, Owned, Shaped;
    if |list| == 0 {
      KeptRefl(t, s);
    } else {
      var init, i := list[..|list| - 1], list[|list| - 1];
      PlaceIrqsKept(t, s, d, init);
      var r := PlaceIrqs(t, s, d, init);
      KeptMeans(t, s, r);
      assert i !in init;
      PlaceIrqKept(t, r, d, i);
      KeptTrans(t, s, r, PlaceIrq(t, r, d, i));
    }
  }

  lemma PlaceInNodeKept(t: Topo, s: State, i: IrqId)
    requires Basic(t, s) && Linked(s) && i in s.irq && s.irq[i].home == None && s.irq[i].level != NoBalance
    ensures Kept(t, s, PlaceInNode(t, s, i)) && OthersSame(s, PlaceInNode(t, s, i), i)
  {
    hide Kept, MigrateObj, FindBest, Owned, Reach, Movable;
    PlaceInNodeFits(t, s, i);
    KeptRefl(t, s);
    InDb(s, i);
    OwnedMovable(s, i);
    var n := s.irq[i].node;
    if (t.at[n].number != NUMA_NO_NODE || !t.numaAvail) && Usable(t, n) {
      ReachNode(t, n);
      MigrateKept(t, s, None, Some(n), i);
    } else {
      var b := FindBest(t, s, t.nodes);
      if b.Some? {
        ReachNode(t, b.value);
        MigrateKept(t, s, None, b, i);
      }
    }
  }

  /** All interrupts of the list wait without a home. */
  ghost predicate AllWaiting(s: State, list: seq<IrqId>) {
    forall i :: i in list ==> i in s.irq && s.irq[i].home == None && s.irq[i].level != NoBalance
  }

  lemma {:induction false} PlaceInNodesKept(t: Topo, s: State, list: seq<IrqId>)
    requires Basic(t, s) && Linked(s) && AllWaiting(s, list) && NoDup(list)
    ensures Kept(t, s, PlaceInNodes(t, s, list))
    ensures forall x :: x in s.irq && x !in list ==> PlaceInNodes(t, s, list).irq[x] == s.irq[x]
    decreases |list|
  {
    hide Kept, PlaceInNode, Owned, Shaped;
    if |list| == 0 {
      KeptRefl(t, s);
    } else {
      var init, i := list[..|list| - 1], list[|list| - 1];
      PlaceInNodesKept(t, s, init);
      var r := PlaceInNodes(t, s, init);
      KeptMeans(t, s, r);
      assert i !in init;
      PlaceInNodeKept(t, r, i);
      KeptTrans(t, s, r, PlaceInNode(t, r, i));
    }
  }

  /** What ownership says about the lists walked by placement. */
  lemma OwnedLists(s: State)
    requires Owned(s)
    ensures Linked(s) && AllWaiting(s, s.rebalance) && NoDup(s.rebalance)
    ensures forall o :: o in s.obj ==> AllAt(s, s.obj[o].irqs, o) && NoDup(s.obj[o].irqs)
  {
    hide NoDup;
    OwnedLinked(s);
    assert NoRepeat(s, None);
    forall i | i in s.rebalance
      ensures i in s.irq && s.irq[i].home == None && s.irq[i].level != NoBalance
    {
      assert FoundAt(s, i, None);
    }
    forall o | o in s.obj
      ensures AllAt(s, s.obj[o].irqs, o) && NoDup(s.obj[o].irqs)
    {
      assert NoRepeat(s, Some(o));
      forall i | i in s.obj[o].irqs
        ensures i in s.irq && s.irq[i].home == Some(o)
      {
        assert FoundAt(s, i, Some(o));
      }
    }
  }

  // ---- whole passes

  /** place_irq_in_object */
  function PlaceObj(t: Topo, s: State, d: ObjId): (r: State)
    requires Basic(t, s) && d in t.at
    ensures Kept(t, s, r)
  {
    OwnedLists(s);
    PlaceIrqsKept(t, s, d, s.obj[d].irqs);
    PlaceIrqs(t, s, d, s.obj[d].irqs)
  }

  /** for_each_object(list, place_irq_in_object) */
  function PlaceObjs(t: Topo, s: State, list: seq<ObjId>): (r: State)
    requires Basic(t, s) && forall d :: d in list ==> d in t.at
    ensures Kept(t, s, r)
  {
    if |list| == 0 then KeptRefl(t, s); s
    else
      var q := PlaceObjs(t, s, list[..|list| - 1]);
      KeptMeans(t, s, q);
      var r := PlaceObj(t, q, list[|list| - 1]);
      KeptTrans(t, s, q, r);
      r
  }

  // ---- sorting

  /** sort_irqs: higher class first, then higher load, then the higher number (for the address). */
  predicate Before(a: Irq, i: IrqId, b: Irq, j: IrqId) {
    a.cls > b.cls || (a.cls == b.cls && (a.load > b.load || (a.load == b.load && i >= j)))
  }

  function Insert(s: State, i: IrqId, l: seq<IrqId>): seq<IrqId>
    requires i in s.irq && forall x :: x in l ==> x in s.irq
  {
    if |l| == 0 then [i]
    else if Before(s.irq[i], i, s.irq[l[0]], l[0]) then [i] + l
    else [l[0]] + Insert(s, i, l[1..])
  }

  /** sort_irq_list */
  function Sort(s: State, l: seq<IrqId>): (r: seq<IrqId>)
    requires forall x :: x in l ==> x in s.irq
    ensures multiset(r) == multiset(l)
    ensures forall x :: x in r ==> x in s.irq
  {
    if |l| == 0 then []
    else
      var rest := Sort(s, l[1..]);
      var r := Insert(s, l[0], rest);
      InsertElems(s, l[0], rest);
      assert l == [l[0]] + l[1..];
      assert forall x :: x in r ==> x in multiset(r);
      assert forall x :: x in multiset(l) ==> x in l;
      r
  }

  ghost predicate Sorted(s: State, l: seq<IrqId>)
    requires forall x :: x in l ==> x in s.irq
  {
    forall a, b :: 0 <= a < b < |l| ==> Before(s.irq[l[a]], l[a], s.irq[l[b]], l[b])
  }

  lemma {:induction false} InsertElems(s: State, i: IrqId, l: seq<IrqId>)
    requires i in s.irq && forall x :: x in l ==> x in s.irq
    ensures multiset(Insert(s, i, l)) == multiset(l) + multiset{i}
    decreases |l|
  {
    if |l| > 0 {
      assert l == [l[0]] + l[1..];
      if !Before(s.irq[i], i, s.irq[l[0]], l[0]) { InsertElems(s, i, l[1..]); }
    }
  }

  lemma {:induction false} InsertSorted(s: State, i: IrqId, l: seq<IrqId>)
    requires i in s.irq && (forall x :: x in l ==> x in s.irq) && Sorted(s, l)
    ensures forall x :: x in Insert(s, i, l) ==> x == i || x in l
    ensures Sorted(s, Insert(s, i, l))
    decreases |l|
  {
    var r := Insert(s, i, l);
    if |l| > 0 {
      if Before(s.irq[i], i, s.irq[l[0]], l[0]) {
        assert r == [i] + l;
      } else {
        var tail := l[1..];
        InsertSorted(s, i, tail);
        var rest := Insert(s, i, tail);
        assert r == [l[0]] + rest;
        forall b | 0 <= b < |rest|
          ensures Before(s.irq[l[0]], l[0], s.irq[rest[b]], rest[b])
        {
          assert rest[b] in rest;
          if rest[b] != i {
            var k :| 0 <= k < |tail| && tail[k] == rest[b];
            assert l[k + 1] == rest[b];
          }
        }
      }
    }
  }

  lemma {:induction false} SortIsSorted(s: State, l: seq<IrqId>)
    requires forall x :: x in l ==> x in s.irq
    ensures Sorted(s, Sort(s, l))
    decreases |l|
  {
    if |l| > 0 {
      SortIsSorted(s, l[1..]);
      InsertSorted(s, l[0], Sort(s, l[1..]));
    }
  }

  /** A permutation keeps membership and distinctness. */
  lemma {:induction false} Permuted(a: seq<nat>, b: seq<nat>)
    requires multiset(a) == multiset(b)
    ensures forall x :: x in a <==> x in b
    ensures NoDup(a) ==> NoDup(b)
  {
    forall x
      ensures x in a <==> x in b
    {
      assert x in multiset(a) <==> x in multiset(b);
    }
    if NoDup(a) && !NoDup(b) {
      var i, j :| 0 <= i < j < |b| && b[i] == b[j];
      var x := b[i];
      assert b == b[..i] + [x] + b[i + 1..j] + [x] + b[j + 1..];
      assert multiset(b)[x] >= 2;
      OnceOnly(a, x);
    }
  }

  lemma {:induction false} OnceOnly(a: seq<nat>, x: nat)
    requires NoDup(a)
    ensures multiset(a)[x] <= 1
  {
    if |a| > 0 {
      assert a == [a[0]] + a[1..];
      OnceOnly(a[1..], x);
      assert a[0] !in a[1..];
      assert x !in a[1..] ==> x !in multiset(a[1..]);
    }
  }

  // ---- calculate_placement

  /** Reordering a list is invisible to the invariants. */
  lemma SortKept(t: Topo, s: State)
    requires Basic(t, s) && forall x :: x in s.rebalance ==> x in s.irq
    ensures Kept(t, s, s.(rebalance := Sort(s, s.rebalance)))
    ensures forall x :: x in Sort(s, s.rebalance) <==> x in s.rebalance
  {
    hide Shaped, Reach, Sort, Owned, SlotOk;
    Permuted(s.rebalance, Sort(s, s.rebalance));
    SortOwned(s, Sort(s, s.rebalance));
  }

  lemma SortOwned(s: State, l: seq<IrqId>)
    requires Owned(s) && multiset(l) == multiset(s.rebalance)
    ensures Owned(s.(rebalance := l))
  {
    hide NoDup;
    var r := s.(rebalance := l);
    Permuted(s.rebalance, l);
    assert forall x, at :: FoundAt(r, x, at) <==> FoundAt(s, x, at);
    forall at
      ensures NoRepeat(r, at)
    {
      assert NoRepeat(s, at);
    }
  }

  /** The interrupts that have left the rebalance list, and the passes over nodes, packages and caches. */
  function CalculatePlacement(t: Topo, s: State): (r: State)
    requires Basic(t, s)
    ensures Kept(t, s, r)
  {
    OwnedLists(s);
    SortKept(t, s);
    var s0 := s.(rebalance := Sort(s, s.rebalance));
    KeptMeans(t, s, s0);
    if |s0.rebalance| == 0 then s0
    else
      OwnedLists(s0);
      PlaceInNodesKept(t, s0, s0.rebalance);
      var s1 := PlaceInNodes(t, s0, s0.rebalance);
      KeptMeans(t, s0, s1);
      TreeLists(t);
      var s2 := PlaceObjs(t, s1, t.nodes);
      KeptMeans(t, s1, s2);
      var s3 := PlaceObjs(t, s2, t.packages);
      KeptMeans(t, s2, s3);
      var s4 := PlaceObjs(t, s3, t.caches);
      KeptTrans(t, s, s0, s1);
      KeptTrans(t, s, s1, s2);
      KeptTrans(t, s, s2, s3);
      KeptTrans(t, s, s3, s4);
      s4
  }

  lemma TreeLists(t: Topo)
    requires Shaped(t)
    ensures forall o :: o in t.nodes || o in t.packages || o in t.caches || o in t.cpus ==> o in t.at
  {
  }
}
