/** parse_proc_stat as one step: readings, sums, counts and shares; and the bound selection relies on. */
module Stat {
  import opened Topology
  import opened Irqs
  import opened Invariant
  import opened Placement
  import opened Load

  /** r differs from s in measured quantities only. */
  ghost predicate Measured(s: State, r: State) {
    && r.db == s.db && r.banned == s.banned && r.rebalance == s.rebalance && r.writes == s.writes
    && r.obj.Keys == s.obj.Keys && r.irq.Keys == s.irq.Keys
    && (forall o :: o in s.obj ==> r.obj[o] == s.obj[o].(load := r.obj[o].load, irqCount := r.obj[o].irqCount))
    && (forall i :: i in s.irq ==> r.irq[i] == s.irq[i].(load := r.irq[i].load))
  }

  lemma MeasuredTrans(s: State, r: State, q: State)
    requires Measured(s, r) && Measured(r, q)
    ensures Measured(s, q)
  {
  }

  lemma MeasuredKept(t: Topo, s: State, r: State)
    requires Basic(t, s) && Measured(s, r)
    ensures Kept(t, s, r)
  {
    hide Kept, FoundAt, NoRepeat, NoDup, Shaped;
    assert Registered(s);
    assert Quiet(s, r);
    QuietKept(t, s, r);
  }

  /** compute_irq_branch_load_share over a list of objects. */
  ghost function AttributeAll(t: Topo, s: State, list: seq<ObjId>): (r: State)
    requires Basic(t, s) && forall d :: d in list ==> d in t.at
    ensures Measured(s, r) && Basic(t, r) && r.obj == s.obj
  {
    if |list| == 0 then s
    else
      var q := AttributeAll(t, s, list[..|list| - 1]);
      AttributeStep(t, q, list[|list| - 1]);
      var r := Attribute(t, q, list[|list| - 1]);
      MeasuredTrans(s, q, r);
      r
  }

  lemma ListsCounted(t: Topo, s: State)
    requires Basic(t, s)
    ensures Counted(s)
  {
    hide NoDup;
    OwnedLists(s);
  }

  lemma AttributeStep(t: Topo, s: State, d: ObjId)
    requires Basic(t, s) && d in t.at
    ensures forall i :: i in s.obj[d].irqs ==> i in s.irq && s.irq[i].last <= s.irq[i].count
    ensures
      var r := Attribute(t, s, d);
      Measured(s, r) && Basic(t, r) && r.obj == s.obj
  {
    hide Owned, Shaped, LoadSlice, Kept;
    ListsCounted(t, s);
    var r := Attribute(t, s, d);
    assert Measured(s, r);
    MeasuredKept(t, s, r);
    KeptMeans(t, s, r);
  }

  /** Every object's own count is the sum over its list; objects without interrupts may hold anything. */
  ghost predicate CountsSet(s: State)
    requires Counted(s)
  {
    forall o :: o in s.obj && s.obj[o].irqs != [] ==> s.obj[o].irqCount == DiffSum(s, s.obj[o].irqs)
  }

  /** Two objects never share an interrupt. */
  lemma Apart(s: State, a: ObjId, b: ObjId, i: IrqId)
    requires Owned(s) && a in s.obj && b in s.obj && i in s.obj[a].irqs && i in s.obj[b].irqs
    ensures a == b
  {
    assert FoundAt(s, i, Some(a)) && FoundAt(s, i, Some(b));
  }

  lemma {:induction false} AttributeAllBounds(t: Topo, s: State, list: seq<ObjId>, o: ObjId)
    requires Basic(t, s) && Counted(s) && CountsSet(s) && (forall d :: d in list ==> d in t.at) && NoDup(list) && o in list
    ensures Bounded(AttributeAll(t, s, list), o)
    decreases |list|
  {
    hide Owned, Shaped, BigSum, Attribute, DiffSum;
    var init, d := list[..|list| - 1], list[|list| - 1];
    assert d !in init;
    var q := AttributeAll(t, s, init);
    AttributeStep(t, q, d);
    var r := Attribute(t, q, d);
    ListsCounted(t, q);
    OwnedLists(q);
    if o == d {
      if q.obj[d].irqs == [] {
        BigNone(r);
      } else {
        SameDiff(s, q, q.obj[d].irqs);
        AttributeBounds(t, q, d);
      }
    } else {
      AttributeAllBounds(t, s, init, o);
      forall i | i in q.obj[o].irqs
        ensures i in r.irq && r.irq[i].load == q.irq[i].load
      {
        if i in q.obj[d].irqs { Apart(q, o, d, i); }
        AttributeElsewhere(t, q, d, i);
      }
      SameBig(q, r, q.obj[o].irqs);
    }
  }

  lemma BigNone(s: State)
    ensures BigSum(s, []) == 0
  {
  }

  lemma AttributeElsewhere(t: Topo, s: State, d: ObjId, i: IrqId)
    requires Shaped(t) && s.obj.Keys == t.at.Keys && d in t.at && i in s.irq && i !in s.obj[d].irqs
    requires forall i :: i in s.obj[d].irqs ==> i in s.irq && s.irq[i].last <= s.irq[i].count
    ensures i in Attribute(t, s, d).irq && Attribute(t, s, d).irq[i] == s.irq[i]
  {
    hide Shaped, LoadSlice;
  }

  /** What /proc/stat said: the loads read, and whether every CPU was seen. */
  datatype Reading = Reading(loads: map<ObjId, nat>, complete: bool)

  ghost function ReadCpus(t: Topo, s: State, rd: Reading): State {
    s.(obj := map o | o in s.obj :: if o in t.cpus && o in rd.loads then s.obj[o].(load := rd.loads[o]) else s.obj[o])
  }

  function AllObjects(t: Topo): seq<ObjId> { t.cpus + t.caches + t.packages + t.nodes }

  /** parse_proc_stat */
  ghost function ReadStat(t: Topo, s: State, rd: Reading): (r: State)
    requires Basic(t, s)
    ensures Measured(s, r) && Kept(t, s, r)
  {
    var s1 := ReadCpus(t, s, rd);
    ReadCpusMeasured(t, s, rd);
    if !rd.complete then s1
    else
      var s2 := SetLoads(t, s1);
      SetLoadsMeasured(t, s1);
      var s3 := SetCounts(t, s2);
      SetCountsMeasured(t, s2);
      ObjectsListed(t);
      var r := AttributeAll(t, s3, AllObjects(t));
      MeasuredTrans(s, s1, s2);
      MeasuredTrans(s, s2, s3);
      MeasuredTrans(s, s3, r);
      MeasuredKept(t, s, r);
      r
  }

  lemma ReadCpusMeasured(t: Topo, s: State, rd: Reading)
    requires Basic(t, s)
    ensures
      var r := ReadCpus(t, s, rd);
      Measured(s, r) && Kept(t, s, r) && Basic(t, r)
  {
    hide Owned, Shaped, Kept;
    MeasuredKept(t, s, ReadCpus(t, s, rd));
    KeptMeans(t, s, ReadCpus(t, s, rd));
  }

  lemma SetLoadsMeasured(t: Topo, s: State)
    requires Basic(t, s)
    ensures
      var r := SetLoads(t, s);
      Measured(s, r) && Basic(t, r) && Counted(r)
  {
    hide Owned, Shaped, Kept, Reach, LoadOf;
    MeasuredKept(t, s, SetLoads(t, s));
    KeptMeans(t, s, SetLoads(t, s));
    ListsCounted(t, SetLoads(t, s));
  }

  /** Every reachable object's own count is the sum over its list. */
  ghost predicate CountsReached(t: Topo, s: State) {
    Shaped(t) && Counted(s) && forall o :: o in s.obj && o in Reach(t) ==> s.obj[o].irqCount == DiffSum(s, s.obj[o].irqs)
  }

  lemma SetCountsMeasured(t: Topo, s: State)
    requires Basic(t, s) && Counted(s)
    ensures
      var r := SetCounts(t, s);
      Measured(s, r) && Basic(t, r) && Counted(r) && CountsReached(t, r)
  {
    hide Owned, Shaped, Kept, Reach, DiffSum;
    var r := SetCounts(t, s);
    MeasuredKept(t, s, r);
    KeptMeans(t, s, r);
    ListsCounted(t, r);
    forall o | o in s.obj && o in Reach(t)
      ensures r.obj[o].irqCount == DiffSum(r, r.obj[o].irqs)
    {
      SameDiff(s, r, s.obj[o].irqs);
    }
  }

  lemma ObjectsListed(t: Topo)
    requires Shaped(t)
    ensures forall o :: o in AllObjects(t) <==> o in t.at
    ensures NoDup(AllObjects(t))
  {
    KindsApart(t);
    AppendApart(t.cpus, t.caches);
    AppendApart(t.cpus + t.caches, t.packages);
    AppendApart(t.cpus + t.caches + t.packages, t.nodes);
  }

  lemma KindsApart(t: Topo)
    requires Shaped(t)
    ensures forall o :: o in t.cpus ==> o !in t.caches && o !in t.packages && o !in t.nodes
    ensures forall o :: o in t.caches ==> o !in t.packages && o !in t.nodes
    ensures forall o :: o in t.packages ==> o !in t.nodes
    ensures forall o :: o in t.at ==> o in t.cpus || o in t.caches || o in t.packages || o in t.nodes
    ensures NoDup(t.cpus) && NoDup(t.caches) && NoDup(t.packages) && NoDup(t.nodes)
  {
    hide NoDup;
  }

  lemma AppendApart(a: seq<nat>, b: seq<nat>)
    requires NoDup(a) && NoDup(b) && forall x :: x in a ==> x !in b
    ensures NoDup(a + b)
  {
    forall i, j | 0 <= i < j < |a + b|
      ensures (a + b)[i] != (a + b)[j]
    {
      if i < |a| <= j { assert a[i] in a && b[j - |a|] in b; }
    }
  }

  /** After a complete reading every object's attributed loads above 1 fit in its own load. */
  lemma ReadStatBounds(t: Topo, s: State, rd: Reading, o: ObjId)
    requires Basic(t, s) && HomesReached(t, s) && rd.complete && o in t.at
    ensures Bounded(ReadStat(t, s, rd), o)
  {
    hide Owned, Shaped, Kept, Reach, SetLoads, SetCounts, ReadCpus, AttributeAll, DiffSum;
    var s1 := ReadCpus(t, s, rd);
    ReadCpusMeasured(t, s, rd);
    var s2 := SetLoads(t, s1);
    SetLoadsMeasured(t, s1);
    var s3 := SetCounts(t, s2);
    SetCountsMeasured(t, s2);
    ObjectsListed(t);
    MeasuredTrans(s, s1, s2);
    MeasuredTrans(s, s2, s3);
    OwnedLists(s);
    forall x | x in s3.obj && s3.obj[x].irqs != []
      ensures s3.obj[x].irqCount == DiffSum(s3, s3.obj[x].irqs)
    {
      var i := s.obj[x].irqs[0];
      assert i in s.obj[x].irqs && s.irq[i].home == Some(x);
    }
    AttributeAllBounds(t, s3, AllObjects(t), o);
  }
}
