/** Load readings, their sums up the tree, and the share attributed to each interrupt (procinterrupts.c). */
module Load {
  import opened Topology
  import opened Irqs
  import opened Balance

  // ---- sums up the tree

  /** The load set_load gives an object: its own if it has no children, else the sum over its children. */
  ghost function LoadOf(t: Topo, s: State, o: ObjId): nat
    requires Shaped(t) && s.obj.Keys == t.at.Keys && o in t.at
    decreases Rank(t.at[o].kind), |t.at[o].children| + 1
  {
    if |t.at[o].children| == 0 then s.obj[o].load else LoadOfFirst(t, s, o, |t.at[o].children|)
  }

  ghost function LoadOfFirst(t: Topo, s: State, o: ObjId, n: nat): nat
    requires Shaped(t) && s.obj.Keys == t.at.Keys && o in t.at && n <= |t.at[o].children|
    decreases Rank(t.at[o].kind), n
  {
    if n == 0 then 0
    else
      ChildOf(t, o, n - 1);
      LoadOfFirst(t, s, o, n - 1) + LoadOf(t, s, t.at[o].children[n - 1])
  }

  /** for_each_object(numa_nodes, set_load) */
  ghost function SetLoads(t: Topo, s: State): State
    requires Shaped(t) && s.obj.Keys == t.at.Keys
  {
    s.(obj := map o | o in s.obj :: if o in Reach(t) then s.obj[o].(load := LoadOf(t, s, o)) else s.obj[o])
  }

  lemma {:induction false} SumSnoc(s: State, cs: seq<ObjId>)
    requires |cs| > 0 && forall c :: c in cs ==> c in s.obj
    ensures SumLoads(s, cs) == SumLoads(s, cs[..|cs| - 1]) + s.obj[cs[|cs| - 1]].load
  {
    if |cs| > 1 {
      assert cs[..|cs| - 1][1..] == cs[1..][..|cs[1..]| - 1];
      SumSnoc(s, cs[1..]);
    }
  }

  lemma {:induction false} SetLoadsSum(t: Topo, s: State, o: ObjId, n: nat)
    requires Shaped(t) && s.obj.Keys == t.at.Keys && o in t.at && o in Reach(t) && n <= |t.at[o].children|
    ensures forall c :: c in t.at[o].children[..n] ==> c in SetLoads(t, s).obj
    ensures SumLoads(SetLoads(t, s), t.at[o].children[..n]) == LoadOfFirst(t, s, o, n)
  {
    hide Reach, LoadOf, Shaped, SetLoads, SumLoads;
    var cs := t.at[o].children[..n];
    var r := SetLoads(t, s);
    SetLoadsAt(t, s, o);
    forall c | c in cs
      ensures c in r.obj
    {
      var k :| 0 <= k < |cs| && cs[k] == c;
      ChildOf(t, o, k);
    }
    if n > 0 {
      SetLoadsSum(t, s, o, n - 1);
      assert cs[..n - 1] == t.at[o].children[..n - 1];
      ChildOf(t, o, n - 1);
      ReachChild(t, o, cs[n - 1]);
      SetLoadsAt(t, s, cs[n - 1]);
      SumSnoc(r, cs);
    } else {
      SumNone(r);
    }
  }

  lemma SumNone(s: State)
    ensures SumLoads(s, []) == 0
  {
  }

  lemma SetLoadsAt(t: Topo, s: State, o: ObjId)
    requires Shaped(t) && s.obj.Keys == t.at.Keys && o in t.at
    ensures SetLoads(t, s).obj.Keys == s.obj.Keys
    ensures o in Reach(t) ==> SetLoads(t, s).obj[o] == s.obj[o].(load := LoadOf(t, s, o))
  {
    hide Reach, LoadOf, Shaped;
  }

  /** After set_load every reachable object with children carries exactly the sum of its children's loads. */
  lemma SetLoadsBalanced(t: Topo, s: State, o: ObjId)
    requires Shaped(t) && s.obj.Keys == t.at.Keys && o in t.at && o in Reach(t) && |t.at[o].children| > 0
    ensures
      var r := SetLoads(t, s);
      && (forall c :: c in t.at[o].children ==> c in r.obj)
      && r.obj[o].load == SumLoads(r, t.at[o].children)
  {
    hide Reach, LoadOfFirst;
    SetLoadsSum(t, s, o, |t.at[o].children|);
    assert t.at[o].children[..|t.at[o].children|] == t.at[o].children;
  }

  // ---- interrupt counts

  /** Interrupts seen since the last reading, for a list. */
  ghost function DiffSum(s: State, l: seq<IrqId>): nat
    requires forall i :: i in l ==> i in s.irq && s.irq[i].last <= s.irq[i].count
  {
    if |l| == 0 then 0 else (s.irq[l[0]].count - s.irq[l[0]].last) + DiffSum(s, l[1..])
  }

  lemma {:induction false} SameDiff(s: State, r: State, l: seq<IrqId>)
    requires forall i :: i in l ==> i in s.irq && s.irq[i].last <= s.irq[i].count && i in r.irq && r.irq[i].count == s.irq[i].count && r.irq[i].last == s.irq[i].last
    ensures DiffSum(r, l) == DiffSum(s, l)
  {
    if |l| > 0 { SameDiff(s, r, l[1..]); }
  }

  ghost predicate Counted(s: State) {
    forall o, i :: o in s.obj && i in s.obj[o].irqs ==> i in s.irq && s.irq[i].last <= s.irq[i].count
  }

  /** for_each_object(numa_nodes, accumulate_interrupts) */
  ghost function SetCounts(t: Topo, s: State): State
    requires Shaped(t) && s.obj.Keys == t.at.Keys && Counted(s)
  {
    s.(obj := map o | o in s.obj :: if o in Reach(t) then s.obj[o].(irqCount := DiffSum(s, s.obj[o].irqs)) else s.obj[o])
  }

  /** get_parent_branch_irq_count_share */
  function Share(t: Topo, s: State, d: ObjId): (n: nat)
    requires Shaped(t) && s.obj.Keys == t.at.Keys && d in t.at
    ensures n >= s.obj[d].irqCount
    decreases 4 - Rank(t.at[d].kind)
  {
    match t.at[d].parent
    case None => s.obj[d].irqCount
    case Some(p) =>
      assert d in t.at[p].children;
      Share(t, s, p) / |t.at[p].children| + s.obj[d].irqCount
  }

  /** get_children_branch_irq_count: the counts of d and everything below. */
  function BranchCount(t: Topo, s: State, d: ObjId): nat
    requires Shaped(t) && s.obj.Keys == t.at.Keys && d in t.at
    decreases Rank(t.at[d].kind), |t.at[d].children| + 1
  {
    BelowCount(t, s, d, |t.at[d].children|) + s.obj[d].irqCount
  }

  function BelowCount(t: Topo, s: State, d: ObjId, n: nat): nat
    requires Shaped(t) && s.obj.Keys == t.at.Keys && d in t.at && n <= |t.at[d].children|
    decreases Rank(t.at[d].kind), n
  {
    if n == 0 then 0
    else
      ChildOf(t, d, n - 1);
      BelowCount(t, s, d, n - 1) + BranchCount(t, s, t.at[d].children[n - 1])
  }

  /** The load of one interrupt on d. */
  function LoadSlice(t: Topo, s: State, d: ObjId): nat
    requires Shaped(t) && s.obj.Keys == t.at.Keys && d in t.at
  {
    var local := Share(t, s, d) + BelowCount(t, s, d, |t.at[d].children|);
    if local != 0 then s.obj[d].load / local else 1
  }

  /** assign_load_slice: at least 1. */
  function Sliced(q: Irq, slice: nat): Irq
    requires q.last <= q.count
  {
    var load := (q.count - q.last) * slice;
    q.(load := if load == 0 then 1 else load)
  }

  /** compute_irq_branch_load_share */
  function Attribute(t: Topo, s: State, d: ObjId): State
    requires Shaped(t) && s.obj.Keys == t.at.Keys && d in t.at
    requires forall i :: i in s.obj[d].irqs ==> i in s.irq && s.irq[i].last <= s.irq[i].count
  {
    s.(irq := map i | i in s.irq :: if i in s.obj[d].irqs then Sliced(s.irq[i], LoadSlice(t, s, d)) else s.irq[i])
  }

  // ---- the attributed load never exceeds the object's load

  /** The loads worth moving: above 1. */
  ghost function BigSum(s: State, l: seq<IrqId>): nat
    requires forall i :: i in l ==> i in s.irq
  {
    if |l| == 0 then 0 else (if s.irq[l[0]].load > 1 then s.irq[l[0]].load else 0) + BigSum(s, l[1..])
  }

  lemma {:induction false} SameBig(s: State, r: State, l: seq<IrqId>)
    requires forall i :: i in l ==> i in s.irq && i in r.irq && r.irq[i].load == s.irq[i].load
    ensures BigSum(r, l) == BigSum(s, l)
  {
    if |l| > 0 { SameBig(s, r, l[1..]); }
  }

  ghost predicate Bounded(s: State, o: ObjId) {
    o in s.obj && (forall i :: i in s.obj[o].irqs ==> i in s.irq) && BigSum(s, s.obj[o].irqs) <= s.obj[o].load
  }

  lemma {:induction false} SlicedSum(s: State, r: State, l: seq<IrqId>, slice: nat)
    requires forall i :: i in l ==> i in s.irq && i in r.irq && s.irq[i].last <= s.irq[i].count && r.irq[i] == Sliced(s.irq[i], slice)
    ensures BigSum(r, l) <= DiffSum(s, l) * slice
  {
    if |l| > 0 {
      SlicedSum(s, r, l[1..], slice);
      var q := s.irq[l[0]];
      var diff := q.count - q.last;
      assert (diff + DiffSum(s, l[1..])) * slice == diff * slice + DiffSum(s, l[1..]) * slice;
      assert diff * slice >= 0;
    }
  }

  lemma {:induction false} NoCounts(s: State, r: State, l: seq<IrqId>, slice: nat)
    requires forall i :: i in l ==> i in s.irq && i in r.irq && s.irq[i].last <= s.irq[i].count && r.irq[i] == Sliced(s.irq[i], slice)
    requires DiffSum(s, l) == 0
    ensures BigSum(r, l) == 0
  {
    if |l| > 0 { NoCounts(s, r, l[1..], slice); }
  }

  /** Floor division: slices of the share never add up to more than the load. */
  lemma SliceBound(count: nat, local: nat, load: nat)
    requires count <= local && local > 0
    ensures count * (load / local) <= load
  {
    var q := load / local;
    assert local * q <= load;
    assert count * q <= local * q;
  }

  /** After compute_irq_branch_load_share the loads above 1 on d add up to at most d's load. */
  lemma AttributeBounds(t: Topo, s: State, d: ObjId)
    requires Shaped(t) && s.obj.Keys == t.at.Keys && d in t.at
    requires forall i :: i in s.obj[d].irqs ==> i in s.irq && s.irq[i].last <= s.irq[i].count
    requires s.obj[d].irqCount == DiffSum(s, s.obj[d].irqs)
    ensures Bounded(Attribute(t, s, d), d)
  {
    hide Shaped, Share, BelowCount, Sliced, DiffSum, BigSum;
    var r := Attribute(t, s, d);
    var l := s.obj[d].irqs;
    var local := Share(t, s, d) + BelowCount(t, s, d, |t.at[d].children|);
    var slice := LoadSlice(t, s, d);
    if local == 0 {
      NoCounts(s, r, l, slice);
    } else {
      SlicedSum(s, r, l, slice);
      SliceBound(DiffSum(s, l), local, s.obj[d].load);
    }
  }
}
