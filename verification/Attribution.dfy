/** A complete reading of /proc/stat in numbers: the load of every CPU and of every interrupt. */
module Attribution {
  import opened Topology
  import opened Irqs
  import opened Invariant
  import opened Placement
  import opened Load
  import opened Stat

  /** The interrupts an object stands for: its share from above, its own and all below. */
  ghost function Local(t: Topo, s: State, d: ObjId): nat
    requires Shaped(t) && s.obj.Keys == t.at.Keys && d in t.at
  {
    Share(t, s, d) + BelowCount(t, s, d, |t.at[d].children|)
  }

  /** The load of one interrupt that was counted n times on d: n equal slices of d's load, rounded down, and at least 1. */
  ghost predicate SliceOf(t: Topo, s: State, d: ObjId, n: nat, load: nat)
    requires Shaped(t) && s.obj.Keys == t.at.Keys && d in t.at
  {
    if Local(t, s, d) == 0 then load == if n == 0 then 1 else n
    else exists slice: nat :: SliceFits(s.obj[d].load, Local(t, s, d), slice) && load == if n * slice == 0 then 1 else n * slice
  }

  /** slice is the whole part of load / parts. */
  ghost predicate SliceFits(load: nat, parts: nat, slice: nat) { parts * slice <= load < parts * (slice + 1) }

  lemma WholePart(load: nat, parts: nat)
    requires parts > 0
    ensures SliceFits(load, parts, load / parts)
  {
    assert load == parts * (load / parts) + load % parts;
    assert parts * (load / parts + 1) == parts * (load / parts) + parts;
  }

  /** compute_irq_branch_load_share on one object. */
  lemma AttributeExact(t: Topo, s: State, d: ObjId, i: IrqId)
    requires Shaped(t) && s.obj.Keys == t.at.Keys && d in t.at && i in s.irq
    requires forall x :: x in s.obj[d].irqs ==> x in s.irq && s.irq[x].last <= s.irq[x].count
    ensures
      var r := Attribute(t, s, d);
      && i in r.irq && r.irq[i] == s.irq[i].(load := r.irq[i].load)
      && (i in s.obj[d].irqs ==> SliceOf(t, s, d, s.irq[i].count - s.irq[i].last, r.irq[i].load))
      && (i !in s.obj[d].irqs ==> r.irq[i].load == s.irq[i].load)
  {
    hide Shaped, Share, BelowCount;
    if i in s.obj[d].irqs {
      var n, slice := s.irq[i].count - s.irq[i].last, LoadSlice(t, s, d);
      if Local(t, s, d) != 0 {
        WholePart(s.obj[d].load, Local(t, s, d));
        assert SliceFits(s.obj[d].load, Local(t, s, d), slice);
      }
    }
  }

  // ---- the counts do not change while loads are attributed

  lemma {:induction false} ShareCong(t: Topo, s: State, r: State, d: ObjId)
    requires Shaped(t) && s.obj.Keys == t.at.Keys && r.obj == s.obj && d in t.at
    ensures Share(t, r, d) == Share(t, s, d)
    decreases 4 - Rank(t.at[d].kind)
  {
    ParentKnown(t, d);
    if t.at[d].parent.Some? {
      assert d in t.at[t.at[d].parent.value].children;
      ShareCong(t, s, r, t.at[d].parent.value);
    }
  }

  lemma {:induction false} BelowCong(t: Topo, s: State, r: State, d: ObjId, n: nat)
    requires Shaped(t) && s.obj.Keys == t.at.Keys && r.obj == s.obj && d in t.at && n <= |t.at[d].children|
    ensures BelowCount(t, r, d, n) == BelowCount(t, s, d, n)
    decreases Rank(t.at[d].kind), n
  {
    hide Shaped;
    if n > 0 {
      ChildOf(t, d, n - 1);
      var c := t.at[d].children[n - 1];
      BelowCong(t, s, r, d, n - 1);
      BelowCong(t, s, r, c, |t.at[c].children|);
    }
  }

  lemma SliceCong(t: Topo, s: State, r: State, d: ObjId, n: nat, load: nat)
    requires Shaped(t) && s.obj.Keys == t.at.Keys && r.obj == s.obj && d in t.at && SliceOf(t, s, d, n, load)
    ensures SliceOf(t, r, d, n, load)
  {
    hide Shaped, Share, BelowCount;
    ShareCong(t, s, r, d);
    BelowCong(t, s, r, d, |t.at[d].children|);
  }

  /** The turn of its home decides the load of an interrupt; no other turn touches it. */
  lemma {:induction false} AttributeAllExact(t: Topo, s: State, list: seq<ObjId>, i: IrqId, d: ObjId)
    requires Basic(t, s) && (forall o :: o in list ==> o in t.at) && NoDup(list) && d in t.at && d in s.obj
    requires i in s.irq && s.irq[i].home == Some(d) && s.irq[i].last <= s.irq[i].count
    ensures
      var r := AttributeAll(t, s, list);
      i in r.irq && if d in list then SliceOf(t, r, d, s.irq[i].count - s.irq[i].last, r.irq[i].load) else r.irq[i].load == s.irq[i].load
    decreases |list|
  {
    hide Owned, Shaped, Attribute, SliceOf, NoDup;
    if |list| > 0 {
      var init, o := list[..|list| - 1], list[|list| - 1];
      LastApart(list);
      AttributeAllExact(t, s, init, i, d);
      var q := AttributeAll(t, s, init);
      AttributeStep(t, q, o);
      AttributeExact(t, q, o, i);
      AtHomeOnly(q, i, d, o);
      var r := Attribute(t, q, o);
      if o == d {
        SliceCong(t, q, r, d, s.irq[i].count - s.irq[i].last, r.irq[i].load);
      } else if d in init {
        SliceCong(t, q, r, d, s.irq[i].count - s.irq[i].last, r.irq[i].load);
      }
    }
  }

  lemma AtHomeOnly(s: State, i: IrqId, d: ObjId, o: ObjId)
    requires Owned(s) && i in s.irq && s.irq[i].home == Some(d) && d in s.obj && o in s.obj
    ensures i in s.obj[o].irqs <==> o == d
  {
    hide NoRepeat, NoDup;
    if i in s.obj[o].irqs { assert FoundAt(s, i, Some(o)); }
    assert FoundAt(s, i, Some(d));
  }

  /** After a complete reading: every placed interrupt carries its slice of the load of its object. */
  lemma ReadingSlices(t: Topo, s: State, rd: Reading, i: IrqId, d: ObjId)
    requires Basic(t, s) && rd.complete && i in s.irq && s.irq[i].home == Some(d)
    ensures
      var r := ReadStat(t, s, rd);
      && d in t.at && Shaped(t) && r.obj.Keys == t.at.Keys && i in r.irq
      && s.irq[i].last <= s.irq[i].count && SliceOf(t, r, d, s.irq[i].count - s.irq[i].last, r.irq[i].load)
  {
    hide *;
    HomeInTree(t, s, i, d);
    StatStages(t, s, rd);
    var s3 := SetCounts(t, SetLoads(t, ReadCpus(t, s, rd)));
    SameRecord(s, s3, i);
    AttributeAllExact(t, s3, AllObjects(t), i, d);
  }

  lemma SameRecord(s: State, r: State, i: IrqId)
    requires Measured(s, r) && i in s.irq
    ensures i in r.irq && r.irq[i] == s.irq[i].(load := r.irq[i].load)
  {
  }

  /** parse_proc_stat in its stages. */
  lemma StatStages(t: Topo, s: State, rd: Reading)
    requires Basic(t, s) && rd.complete
    ensures Shaped(t) && ReadCpus(t, s, rd).obj.Keys == t.at.Keys
    ensures
      var s2 := SetLoads(t, ReadCpus(t, s, rd));
      && s2.obj.Keys == t.at.Keys && Counted(s2)
      && var s3 := SetCounts(t, s2);
         && Basic(t, s3) && s3.obj.Keys == t.at.Keys && Measured(s, s3)
         && (forall o :: o in AllObjects(t) <==> o in t.at) && NoDup(AllObjects(t))
         && ReadStat(t, s, rd) == AttributeAll(t, s3, AllObjects(t)) && ReadStat(t, s, rd).obj == s3.obj
  {
    hide Owned, Shaped, Kept, Reach, ReadCpus, SetLoads, SetCounts, AttributeAll, AllObjects, NoDup, Measured;
    var s1 := ReadCpus(t, s, rd);
    ReadCpusMeasured(t, s, rd);
    var s2 := SetLoads(t, s1);
    SetLoadsMeasured(t, s1);
    SetCountsMeasured(t, s2);
    ObjectsListed(t);
    MeasuredTrans(s, s1, s2);
    MeasuredTrans(s, s2, SetCounts(t, s2));
  }

  lemma HomeInTree(t: Topo, s: State, i: IrqId, d: ObjId)
    requires Basic(t, s) && i in s.irq && s.irq[i].home == Some(d)
    ensures d in t.at && d in s.obj && Shaped(t) && s.irq[i].last <= s.irq[i].count
  {
    hide NoRepeat, Shaped, NoDup;
    assert FoundAt(s, i, Some(d));
  }

  /** A reading stores the load read for each CPU, complete or not; a CPU without a reading keeps its load. */
  lemma ReadingLoads(t: Topo, s: State, rd: Reading, c: ObjId)
    requires Basic(t, s) && c in t.cpus
    ensures
      var r := ReadStat(t, s, rd);
      c in s.obj && c in r.obj && r.obj[c].load == if c in rd.loads then rd.loads[c] else s.obj[c].load
  {
    hide Owned, Shaped, Kept, Reach, SetCounts, AttributeAll, LoadOf, AllObjects;
    CpuLeaf(t, s, c);
    var s1 := ReadCpus(t, s, rd);
    ReadCpusMeasured(t, s, rd);
    var s2 := SetLoads(t, s1);
    SetLoadsMeasured(t, s1);
    LeafKeeps(t, s1, c);
    SetCountsMeasured(t, s2);
    CountsKeepLoad(t, s2, c);
    ObjectsListed(t);
  }

  lemma CountsKeepLoad(t: Topo, s: State, c: ObjId)
    requires Shaped(t) && s.obj.Keys == t.at.Keys && Counted(s) && c in s.obj
    ensures c in SetCounts(t, s).obj && SetCounts(t, s).obj[c].load == s.obj[c].load
  {
    hide Shaped, Reach, DiffSum;
  }

  lemma CpuLeaf(t: Topo, s: State, c: ObjId)
    requires Basic(t, s) && c in t.cpus
    ensures c in t.at && c in s.obj && t.at[c].children == []
  {
    hide Owned, NoDup;
    assert t.at[c].kind == Cpu;
    if t.at[c].children != [] { ChildOf(t, c, 0); }
  }

  lemma LeafKeeps(t: Topo, s: State, c: ObjId)
    requires Shaped(t) && s.obj.Keys == t.at.Keys && c in t.at && t.at[c].children == []
    ensures c in SetLoads(t, s).obj && SetLoads(t, s).obj[c].load == s.obj[c].load
  {
    hide Shaped, Reach;
  }
}
