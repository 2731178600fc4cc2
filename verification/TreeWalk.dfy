/** The recursive walks over the tree of procinterrupts.c and cputree.c, as methods on the global state. */
module TreeWalk {
  import opened Topology
  import opened Irqs
  import opened Balance
  import opened Load
  import opened Balancer
  import opened PlacementCode

  /** Everything at or below the objects of the list. */
  ghost function Below(t: Topo, list: seq<ObjId>): set<ObjId>
    requires Shaped(t) && forall o :: o in list ==> o in t.at
  {
    set o, x | o in list && x in Desc(t, o) :: x
  }

  lemma BelowNone(t: Topo)
    requires Shaped(t)
    ensures Below(t, []) == {}
  {
  }

  lemma BelowMore(t: Topo, list: seq<ObjId>, k: nat)
    requires Shaped(t) && (forall o :: o in list ==> o in t.at) && k < |list|
    ensures forall o :: o in list[..k + 1] ==> o in t.at
    ensures forall o :: o in list[..k] ==> o in t.at
    ensures Below(t, list[..k + 1]) == Below(t, list[..k]) + Desc(t, list[k])
  {
    hide Desc, Shaped;
    var a, b := list[..k], list[..k + 1];
    assert b == a + [list[k]];
    assert forall o :: o in b <==> o in a || o == list[k];
  }

  lemma BelowKids(t: Topo, d: ObjId)
    requires Shaped(t) && d in t.at
    ensures forall o :: o in t.at[d].children ==> o in t.at
    ensures Desc(t, d) == {d} + Below(t, t.at[d].children)
    ensures d !in Below(t, t.at[d].children)
  {
    hide NoDup;
    if d in Below(t, t.at[d].children) {
      var o :| o in t.at[d].children && d in Desc(t, o);
      DescInTree(t, o);
    }
  }

  lemma BelowNodes(t: Topo)
    requires Shaped(t)
    ensures forall o :: o in t.nodes ==> o in t.at
    ensures Below(t, t.nodes) == Reach(t)
  {
    hide Desc;
  }

  // ---- set_load

  /** The loads of the objects in `under` replaced by their sums. */
  ghost function Loaded(t: Topo, s: State, under: set<ObjId>): State
    requires Shaped(t) && s.obj.Keys == t.at.Keys
  {
    s.(obj := map o | o in s.obj :: if o in under then s.obj[o].(load := LoadOf(t, s, o)) else s.obj[o])
  }

  /** Replacing loads by sums does not change the sums. */
  lemma {:induction false} LoadedSame(t: Topo, s: State, under: set<ObjId>, o: ObjId)
    requires Shaped(t) && s.obj.Keys == t.at.Keys && o in t.at
    ensures LoadOf(t, Loaded(t, s, under), o) == LoadOf(t, s, o)
    decreases Rank(t.at[o].kind), |t.at[o].children| + 1
  {
    hide Shaped;
    if |t.at[o].children| > 0 { LoadedSameFirst(t, s, under, o, |t.at[o].children|); }
  }

  lemma {:induction false} LoadedSameFirst(t: Topo, s: State, under: set<ObjId>, o: ObjId, n: nat)
    requires Shaped(t) && s.obj.Keys == t.at.Keys && o in t.at && n <= |t.at[o].children|
    ensures LoadOfFirst(t, Loaded(t, s, under), o, n) == LoadOfFirst(t, s, o, n)
    decreases Rank(t.at[o].kind), n
  {
    hide Shaped, LoadOf;
    if n > 0 {
      ChildOf(t, o, n - 1);
      LoadedSameFirst(t, s, under, o, n - 1);
      LoadedSame(t, s, under, t.at[o].children[n - 1]);
    }
  }

  lemma LoadedTwice(t: Topo, s: State, a: set<ObjId>, b: set<ObjId>)
    requires Shaped(t) && s.obj.Keys == t.at.Keys
    ensures Loaded(t, Loaded(t, s, a), b) == Loaded(t, s, a + b)
  {
    hide LoadOf, Shaped;
    forall o | o in s.obj
      ensures LoadOf(t, Loaded(t, s, a), o) == LoadOf(t, s, o)
    {
      LoadedSame(t, s, a, o);
    }
  }

  lemma LoadedNone(t: Topo, s: State)
    requires Shaped(t) && s.obj.Keys == t.at.Keys
    ensures Loaded(t, s, {}) == s
  {
    hide LoadOf, Shaped;
    assert Loaded(t, s, {}).obj == s.obj;
  }

  /** set_load: children first, then the sum over the children. */
  method SetLoad(b: Balancer, d: ObjId)
    requires Shaped(b.t) && b.obj.Keys == b.t.at.Keys && d in b.t.at
    modifies b`obj
    ensures b.obj.Keys == old(b.obj.Keys) && b.Now() == Loaded(b.t, old(b.Now()), Desc(b.t, d))
    decreases Rank(b.t.at[d].kind), 1
  {
    hide Shaped, LoadOf, Desc, Below, Loaded;
    ghost var s := b.Now();
    var kids := b.t.at[d].children;
    BelowKids(b.t, d);
    if |kids| > 0 {
      ChildOf(b.t, d, 0);
      SetLoadEach(b, d);
      AddUpLoads(b, d, s);
    } else {
      LeafLoaded(b.t, s, d);
    }
  }

  lemma LeafLoaded(t: Topo, s: State, d: ObjId)
    requires Shaped(t) && s.obj.Keys == t.at.Keys && d in t.at && t.at[d].children == []
    ensures Loaded(t, s, Desc(t, d)) == s
  {
    hide Shaped, Desc, LoadOf;
    BelowKids(t, d);
    BelowNone(t);
    LeafLoad(t, s, d);
    assert Loaded(t, s, Desc(t, d)).obj == s.obj;
  }

  lemma LeafLoad(t: Topo, s: State, d: ObjId)
    requires Shaped(t) && s.obj.Keys == t.at.Keys && d in t.at && t.at[d].children == []
    ensures LoadOf(t, s, d) == s.obj[d].load
  {
    hide Shaped;
  }

  /** for_each_object(d->children, set_load) */
  method SetLoadEach(b: Balancer, d: ObjId)
    requires Shaped(b.t) && b.obj.Keys == b.t.at.Keys && d in b.t.at
    requires forall o :: o in b.t.at[d].children ==> o in b.t.at
    modifies b`obj
    ensures b.obj.Keys == old(b.obj.Keys) && b.Now() == Loaded(b.t, old(b.Now()), Below(b.t, b.t.at[d].children))
    decreases Rank(b.t.at[d].kind), 0
  {
    hide Shaped, LoadOf, Desc, Below, Loaded;
    ghost var s := b.Now();
    var kids := b.t.at[d].children;
    BelowNone(b.t);
    LoadedNone(b.t, s);
    for k := 0 to |kids|
      invariant b.obj.Keys == s.obj.Keys && (forall o :: o in kids[..k] ==> o in b.t.at)
      invariant b.Now() == Loaded(b.t, s, Below(b.t, kids[..k]))
    {
      BelowMore(b.t, kids, k);
      ChildOf(b.t, d, k);
      SetLoad(b, kids[k]);
      LoadedTwice(b.t, s, Below(b.t, kids[..k]), Desc(b.t, kids[k]));
    }
    Whole(kids);
  }

  /** The sum over the children, whose loads are set. */
  method AddUpLoads(b: Balancer, d: ObjId, ghost s: State)
    requires Shaped(b.t) && s.obj.Keys == b.t.at.Keys && d in b.t.at && |b.t.at[d].children| > 0
    requires forall o :: o in b.t.at[d].children ==> o in b.t.at
    requires b.Now() == Loaded(b.t, s, Below(b.t, b.t.at[d].children))
    modifies b`obj
    ensures b.obj.Keys == old(b.obj.Keys) && b.Now() == Loaded(b.t, s, Desc(b.t, d))
  {
    hide Shaped, LoadOf, Desc, Below;
    BelowKids(b.t, d);
    var kids := b.t.at[d].children;
    ghost var q := b.Now();
    b.obj := b.obj[d := b.obj[d].(load := 0)];
    for k := 0 to |kids|
      invariant b.obj == q.obj[d := q.obj[d].(load := LoadOfFirst(b.t, s, d, k))]
    {
      KidSet(b.t, d, k);
      b.obj := b.obj[d := b.obj[d].(load := b.obj[d].load + b.obj[kids[k]].load)];
    }
    SumIsLoad(b.t, s, d);
    assert b.obj == Loaded(b.t, s, Desc(b.t, d)).obj;
  }

  lemma KidSet(t: Topo, d: ObjId, k: nat)
    requires Shaped(t) && d in t.at && k < |t.at[d].children|
    requires forall o :: o in t.at[d].children ==> o in t.at
    ensures
      var c := t.at[d].children[k];
      c in t.at && c != d && c in Below(t, t.at[d].children)
  {
    hide Shaped;
    ChildOf(t, d, k);
    assert t.at[d].children[k] in Desc(t, t.at[d].children[k]);
  }

  lemma SumIsLoad(t: Topo, s: State, d: ObjId)
    requires Shaped(t) && s.obj.Keys == t.at.Keys && d in t.at && |t.at[d].children| > 0
    ensures LoadOf(t, s, d) == LoadOfFirst(t, s, d, |t.at[d].children|)
  {
    hide Shaped;
  }

  /** for_each_object(numa_nodes, set_load) */
  method SetAllLoads(b: Balancer)
    requires Shaped(b.t) && b.obj.Keys == b.t.at.Keys
    modifies b`obj
    ensures b.Now() == SetLoads(b.t, old(b.Now()))
  {
    hide Shaped, LoadOf, Desc, Below, Loaded, Reach;
    ghost var s := b.Now();
    var nodes := b.t.nodes;
    BelowNone(b.t);
    LoadedNone(b.t, s);
    BelowNodes(b.t);
    for k := 0 to |nodes|
      invariant b.obj.Keys == s.obj.Keys && (forall o :: o in nodes[..k] ==> o in b.t.at)
      invariant b.Now() == Loaded(b.t, s, Below(b.t, nodes[..k]))
    {
      BelowMore(b.t, nodes, k);
      SetLoad(b, nodes[k]);
      LoadedTwice(b.t, s, Below(b.t, nodes[..k]), Desc(b.t, nodes[k]));
    }
    Whole(nodes);
    LoadedReach(b.t, s);
  }

  lemma LoadedReach(t: Topo, s: State)
    requires Shaped(t) && s.obj.Keys == t.at.Keys
    ensures Loaded(t, s, Reach(t)) == SetLoads(t, s)
  {
    hide Shaped, LoadOf, Reach;
    assert Loaded(t, s, Reach(t)).obj == SetLoads(t, s).obj;
  }

  // ---- accumulate_interrupts

  /** The interrupt counts of the objects in `under` taken from their lists. */
  ghost function CountedIn(s: State, under: set<ObjId>): State
    requires Counted(s)
  {
    s.(obj := map o | o in s.obj :: if o in under then s.obj[o].(irqCount := DiffSum(s, s.obj[o].irqs)) else s.obj[o])
  }

  lemma CountedTwice(s: State, a: set<ObjId>, b: set<ObjId>)
    requires Counted(s)
    ensures Counted(CountedIn(s, a)) && CountedIn(CountedIn(s, a), b) == CountedIn(s, a + b)
  {
    hide DiffSum;
    var r := CountedIn(s, a);
    forall o | o in s.obj
      ensures DiffSum(r, s.obj[o].irqs) == DiffSum(s, s.obj[o].irqs)
    {
      SameDiff(s, r, s.obj[o].irqs);
    }
    assert CountedIn(r, b).obj == CountedIn(s, a + b).obj;
  }

  lemma CountedNone(s: State)
    requires Counted(s)
    ensures CountedIn(s, {}) == s
  {
    hide DiffSum;
    assert CountedIn(s, {}).obj == s.obj;
  }

  lemma {:induction false} DiffSumSnoc(s: State, l: seq<IrqId>, k: nat)
    requires k < |l| && forall i :: i in l ==> i in s.irq && s.irq[i].last <= s.irq[i].count
    ensures DiffSum(s, l[..k + 1]) == DiffSum(s, l[..k]) + (s.irq[l[k]].count - s.irq[l[k]].last)
    decreases k
  {
    if k > 0 {
      DiffSumSnoc(s, l[1..], k - 1);
      assert l[..k + 1][1..] == l[1..][..k] && l[..k][1..] == l[1..][..k - 1];
    }
  }

  /** accumulate_interrupts */
  method AccumulateInterrupts(b: Balancer, d: ObjId)
    requires Shaped(b.t) && b.obj.Keys == b.t.at.Keys && d in b.t.at && Counted(b.Now())
    modifies b`obj
    ensures Counted(b.Now()) && b.obj.Keys == old(b.obj.Keys) && b.Now() == CountedIn(old(b.Now()), Desc(b.t, d))
    decreases Rank(b.t.at[d].kind), 1
  {
    hide Shaped, Desc, Below, CountedIn, Counted;
    ghost var s := b.Now();
    BelowKids(b.t, d);
    CountKids(b, d);
    CountOwn(b, d);
    CountedTwice(s, Below(b.t, b.t.at[d].children), {d});
    CountedTwice(s, Desc(b.t, d), {});
    assert Below(b.t, b.t.at[d].children) + {d} == Desc(b.t, d);
  }

  method CountKids(b: Balancer, d: ObjId)
    requires Shaped(b.t) && b.obj.Keys == b.t.at.Keys && d in b.t.at && Counted(b.Now())
    requires forall o :: o in b.t.at[d].children ==> o in b.t.at
    modifies b`obj
    ensures Counted(b.Now()) && b.obj.Keys == old(b.obj.Keys)
    ensures b.Now() == CountedIn(old(b.Now()), Below(b.t, b.t.at[d].children))
    decreases Rank(b.t.at[d].kind), 0
  {
    hide Shaped, Desc, Below, CountedIn, Counted;
    ghost var s := b.Now();
    var kids := b.t.at[d].children;
    BelowNone(b.t);
    CountedNone(s);
    for k := 0 to |kids|
      invariant Counted(b.Now()) && b.obj.Keys == s.obj.Keys && (forall o :: o in kids[..k] ==> o in b.t.at)
      invariant b.Now() == CountedIn(s, Below(b.t, kids[..k]))
    {
      BelowMore(b.t, kids, k);
      ChildOf(b.t, d, k);
      AccumulateInterrupts(b, kids[k]);
      CountedTwice(s, Below(b.t, kids[..k]), Desc(b.t, kids[k]));
    }
    Whole(kids);
  }

  /** The object's own interrupts: for_each_irq(d->interrupts, accumulate_irq_count). */
  method CountOwn(b: Balancer, d: ObjId)
    requires d in b.obj && Counted(b.Now())
    modifies b`obj
    ensures b.obj.Keys == old(b.obj.Keys) && b.Now() == CountedIn(old(b.Now()), {d})
  {
    hide DiffSum;
    ghost var s := b.Now();
    var irqs := b.obj[d].irqs;
    b.obj := b.obj[d := b.obj[d].(irqCount := 0)];
    NoDiff(s);
    for k := 0 to |irqs|
      invariant b.obj == s.obj[d := s.obj[d].(irqCount := DiffSum(s, irqs[..k]))]
    {
      DiffSumSnoc(s, irqs, k);
      assert irqs[k] in irqs;
      var q := b.irq[irqs[k]];
      b.obj := b.obj[d := b.obj[d].(irqCount := b.obj[d].irqCount + (q.count - q.last))];
    }
    Whole(irqs);
    assert b.obj == CountedIn(s, {d}).obj;
  }

  lemma NoDiff(s: State)
    ensures DiffSum(s, []) == 0
  {
  }

  /** for_each_object(numa_nodes, accumulate_interrupts) */
  method CountAll(b: Balancer)
    requires Shaped(b.t) && b.obj.Keys == b.t.at.Keys && Counted(b.Now())
    modifies b`obj
    ensures b.Now() == SetCounts(b.t, old(b.Now()))
  {
    hide Shaped, Desc, Below, CountedIn, Counted, Reach;
    ghost var s := b.Now();
    var nodes := b.t.nodes;
    BelowNone(b.t);
    CountedNone(s);
    BelowNodes(b.t);
    for k := 0 to |nodes|
      invariant Counted(b.Now()) && b.obj.Keys == s.obj.Keys && (forall o :: o in nodes[..k] ==> o in b.t.at)
      invariant b.Now() == CountedIn(s, Below(b.t, nodes[..k]))
    {
      BelowMore(b.t, nodes, k);
      AccumulateInterrupts(b, nodes[k]);
      CountedTwice(s, Below(b.t, nodes[..k]), Desc(b.t, nodes[k]));
    }
    Whole(nodes);
    CountedReach(b.t, s);
  }

  lemma CountedReach(t: Topo, s: State)
    requires Shaped(t) && s.obj.Keys == t.at.Keys && Counted(s)
    ensures CountedIn(s, Reach(t)) == SetCounts(t, s)
  {
    hide Shaped, Reach, DiffSum;
    assert CountedIn(s, Reach(t)).obj == SetCounts(t, s).obj;
  }

  // ---- compute_irq_branch_load_share

  /** compute_irq_branch_load_share */
  method ComputeShare(b: Balancer, d: ObjId)
    requires Shaped(b.t) && b.obj.Keys == b.t.at.Keys && d in b.t.at
    requires forall i :: i in b.obj[d].irqs ==> i in b.irq && b.irq[i].last <= b.irq[i].count
    modifies b`irq
    ensures b.Now() == Attribute(b.t, old(b.Now()), d)
  {
    hide Shaped, Share, BelowCount, Sliced;
    ghost var s := b.Now();
    var local := Share(b.t, b.Now(), d) + BelowCount(b.t, b.Now(), d, |b.t.at[d].children|);
    AssignSlices(b, b.obj[d].irqs, if local != 0 then b.obj[d].load / local else 1);
    assert b.irq == Attribute(b.t, s, d).irq;
  }

  /** for_each_irq(d->interrupts, assign_load_slice) */
  method AssignSlices(b: Balancer, irqs: seq<IrqId>, slice: nat)
    requires forall i :: i in irqs ==> i in b.irq && b.irq[i].last <= b.irq[i].count
    modifies b`irq
    ensures b.irq == map i | i in old(b.irq) :: if i in irqs then Sliced(old(b.irq)[i], slice) else old(b.irq)[i]
  {
    ghost var before := b.irq;
    for k := 0 to |irqs|
      invariant forall i :: i in irqs[..k] ==> i in before && before[i].last <= before[i].count
      invariant b.irq.Keys == before.Keys
      invariant forall i :: i in before ==> b.irq[i] == if i in irqs[..k] then Sliced(before[i], slice) else before[i]
    {
      assert irqs[k] in irqs;
      assert irqs[..k + 1] == irqs[..k] + [irqs[k]];
      var q := b.irq[irqs[k]];
      var load := (q.count - q.last) * slice;
      if load == 0 { load := load + 1; }
      b.irq := b.irq[irqs[k] := q.(load := load)];
    }
    Whole(irqs);
  }

  // ---- clear_slots

  ghost function FreeIn(s: State, under: set<ObjId>): State {
    s.(obj := map o | o in s.obj :: if o in under then s.obj[o].(slots := INT_MAX) else s.obj[o])
  }

  lemma FreeTwice(s: State, a: set<ObjId>, b: set<ObjId>)
    ensures FreeIn(FreeIn(s, a), b) == FreeIn(s, a + b)
    ensures FreeIn(s, {}) == s
  {
    assert FreeIn(FreeIn(s, a), b).obj == FreeIn(s, a + b).obj;
    assert FreeIn(s, {}).obj == s.obj;
  }

  /** clear_obj_slots */
  method ClearObjSlots(b: Balancer, d: ObjId)
    requires Shaped(b.t) && b.obj.Keys == b.t.at.Keys && d in b.t.at
    modifies b`obj
    ensures b.obj.Keys == old(b.obj.Keys) && b.Now() == FreeIn(old(b.Now()), Desc(b.t, d))
    decreases Rank(b.t.at[d].kind)
  {
    hide Shaped, Desc, Below, FreeIn;
    ghost var s := b.Now();
    var kids := b.t.at[d].children;
    BelowKids(b.t, d);
    BelowNone(b.t);
    b.obj := b.obj[d := b.obj[d].(slots := INT_MAX)];
    FreeOne(s, d);
    for k := 0 to |kids|
      invariant b.obj.Keys == s.obj.Keys && (forall o :: o in kids[..k] ==> o in b.t.at)
      invariant b.Now() == FreeIn(s, {d} + Below(b.t, kids[..k]))
    {
      BelowMore(b.t, kids, k);
      ChildOf(b.t, d, k);
      ClearObjSlots(b, kids[k]);
      FreeTwice(s, {d} + Below(b.t, kids[..k]), Desc(b.t, kids[k]));
      assert {d} + Below(b.t, kids[..k]) + Desc(b.t, kids[k]) == {d} + Below(b.t, kids[..k + 1]);
    }
    Whole(kids);
  }

  lemma FreeOne(s: State, d: ObjId)
    requires d in s.obj
    ensures FreeIn(s, {d} + {}) == WithObj(s, d, s.obj[d].(slots := INT_MAX))
  {
    assert FreeIn(s, {d} + {}).obj == s.obj[d := s.obj[d].(slots := INT_MAX)];
  }

  // ---- clear_work_stats

  /** The list for_each_irq walks: the whole database when the object's own list is empty. */
  function Visited(s: State, o: ObjId): seq<IrqId>
    requires o in s.obj
  {
    if s.obj[o].irqs == [] then s.db else s.obj[o].irqs
  }

  ghost predicate Touched(s: State, under: set<ObjId>, i: IrqId) {
    exists o :: o in under && o in s.obj && i in Visited(s, o)
  }

  ghost function IdleIn(s: State, under: set<ObjId>): State {
    s.(irq := map i | i in s.irq :: if Touched(s, under, i) then s.irq[i].(load := 0) else s.irq[i])
  }

  lemma IdleTwice(s: State, a: set<ObjId>, b: set<ObjId>)
    ensures IdleIn(IdleIn(s, a), b) == IdleIn(s, a + b)
    ensures IdleIn(s, {}) == s
  {
    var r := IdleIn(s, a);
    forall i | i in s.irq
      ensures Touched(r, b, i) <==> Touched(s, b, i)
      ensures Touched(s, a + b, i) <==> Touched(s, a, i) || Touched(s, b, i)
    {
      assert forall o :: o in s.obj ==> Visited(r, o) == Visited(s, o);
      if Touched(s, a, i) {
        var o :| o in a && o in s.obj && i in Visited(s, o);
        assert o in a + b;
      }
      if Touched(s, b, i) {
        var o :| o in b && o in s.obj && i in Visited(s, o);
        assert o in a + b && Touched(r, b, i);
      }
    }
    assert IdleIn(r, b).irq == IdleIn(s, a + b).irq;
    assert IdleIn(s, {}).irq == s.irq;
  }

  /** for_each_irq(d->interrupts, clear_irq_stats) */
  method ClearIrqStats(b: Balancer, d: ObjId)
    requires d in b.obj && forall i :: i in Visited(b.Now(), d) ==> i in b.irq
    modifies b`irq
    ensures b.irq.Keys == old(b.irq.Keys) && b.Now() == IdleIn(old(b.Now()), {d})
  {
    ghost var s := b.Now();
    var list := if b.obj[d].irqs == [] then b.db else b.obj[d].irqs;
    for k := 0 to |list|
      invariant b.irq == map i | i in s.irq :: if i in list[..k] then s.irq[i].(load := 0) else s.irq[i]
    {
      assert list[k] in list;
      assert list[..k + 1] == list[..k] + [list[k]];
      b.irq := b.irq[list[k] := b.irq[list[k]].(load := 0)];
    }
    Whole(list);
    assert forall i :: i in list <==> Touched(s, {d}, i);
    assert b.irq == IdleIn(s, {d}).irq;
  }

  ghost predicate ListsKnown(s: State) {
    (forall i :: i in s.db ==> i in s.irq) && forall o, i :: o in s.obj && i in s.obj[o].irqs ==> i in s.irq
  }

  /** clear_obj_stats */
  method ClearObjStats(b: Balancer, d: ObjId)
    requires Shaped(b.t) && b.obj.Keys == b.t.at.Keys && d in b.t.at && ListsKnown(b.Now())
    modifies b`irq
    ensures b.irq.Keys == old(b.irq.Keys) && b.Now() == IdleIn(old(b.Now()), Desc(b.t, d))
    decreases Rank(b.t.at[d].kind)
  {
    hide Shaped, Desc, Below, IdleIn;
    ghost var s := b.Now();
    var kids := b.t.at[d].children;
    BelowKids(b.t, d);
    BelowNone(b.t);
    IdleTwice(s, {}, {});
    for k := 0 to |kids|
      invariant b.irq.Keys == s.irq.Keys && (forall o :: o in kids[..k] ==> o in b.t.at)
      invariant b.Now() == IdleIn(s, Below(b.t, kids[..k]))
    {
      BelowMore(b.t, kids, k);
      ChildOf(b.t, d, k);
      ClearObjStats(b, kids[k]);
      IdleTwice(s, Below(b.t, kids[..k]), Desc(b.t, kids[k]));
    }
    Whole(kids);
    ClearIrqStats(b, d);
    IdleTwice(s, Below(b.t, kids), {d});
    assert Below(b.t, kids) + {d} == Desc(b.t, d);
  }
}
