/** What every step of the daemon keeps, stated once and proved for the elementary steps. */
module Invariant {
  import opened Topology
  import opened Irqs

  /** State and tree belong together. */
  ghost predicate Fits(t: Topo, s: State) {
    && Shaped(t) && s.obj.Keys == t.at.Keys
    && (forall i :: i in s.irq ==> s.irq[i].node in t.nodes && s.irq[i].last <= s.irq[i].count)
  }

  ghost predicate Basic(t: Topo, s: State) {
    Fits(t, s) && Owned(s)
  }

  lemma BasicMeans(t: Topo, s: State)
    requires Basic(t, s)
    ensures Shaped(t) && s.obj.Keys == t.at.Keys && Owned(s)
  {
  }

  /** Every CPU hangs below some NUMA node. */
  ghost predicate CpusReached(t: Topo) {
    Shaped(t) && forall o :: o in t.at && t.at[o].kind == Cpu ==> o in Reach(t)
  }

  /** CPUs have a slot count in range; other objects have no slot limit and never save power. */
  predicate SlotOk(k: Kind, b: Obj) {
    if k == Cpu then 0 <= b.slots <= INT_MAX else b.slots == INT_MAX && !b.powersave
  }

  ghost predicate SlotsOk(t: Topo, s: State) {
    Shaped(t) && forall o :: o in Reach(t) && o in s.obj && o in t.at ==> SlotOk(t.at[o].kind, s.obj[o])
  }

  ghost predicate HomesReached(t: Topo, s: State) {
    Shaped(t) && forall i :: i in s.irq && s.irq[i].home.Some? ==> s.irq[i].home.value in Reach(t)
  }

  /** What no node leads to never has a free slot. */
  ghost predicate Unused(t: Topo, s: State) {
    Shaped(t) && forall o :: o in s.obj && o !in Reach(t) ==> s.obj[o].slots == 0
  }

  ghost predicate Placed(t: Topo, s: State) {
    SlotsOk(t, s) && HomesReached(t, s) && Unused(t, s)
  }

  /** Between s and r, unbalanced interrupts keep level and home and are not written. */
  ghost predicate Frozen(s: State, r: State) {
    && s.writes <= r.writes
    && (forall i :: i in s.irq && s.irq[i].level == NoBalance && i in r.irq ==>
          r.irq[i].level == NoBalance && r.irq[i].home == s.irq[i].home)
    && (forall k :: |s.writes| <= k < |r.writes| ==>
          r.writes[k].irq in r.irq && (r.writes[k].irq in s.irq ==> s.irq[r.writes[k].irq].level != NoBalance))
  }

  /** A step that neither adds nor removes interrupts. */
  ghost predicate Kept(t: Topo, s: State, r: State) {
    && Basic(t, r) && Frozen(s, r) && r.irq.Keys == s.irq.Keys && r.db == s.db && r.banned == s.banned
    && (Placed(t, s) ==> Placed(t, r)) && SameMarks(s, r)
  }

  /** The marks and counters of the last reading of /proc/interrupts are as they were. */
  ghost predicate SameMarks(s: State, r: State) {
    forall i :: i in s.irq && i in r.irq ==>
      r.irq[i].existing == s.irq[i].existing && r.irq[i].count == s.irq[i].count && r.irq[i].last == s.irq[i].last
  }

  lemma FrozenTrans(s: State, r: State, q: State)
    requires Frozen(s, r) && Frozen(r, q)
    requires q.irq.Keys <= r.irq.Keys || s.irq.Keys <= r.irq.Keys
    requires r.writes == s.writes || r.irq.Keys <= q.irq.Keys
    requires q.writes == r.writes || q.irq.Keys <= r.irq.Keys
    ensures Frozen(s, q)
  {
    forall k | |s.writes| <= k < |q.writes|
      ensures q.writes[k].irq in q.irq && (q.writes[k].irq in s.irq ==> s.irq[q.writes[k].irq].level != NoBalance)
    {
      if k < |r.writes| { assert q.writes[k] == r.writes[k]; }
    }
  }

  lemma KeptTrans(t: Topo, s: State, r: State, q: State)
    requires Kept(t, s, r) && Kept(t, r, q)
    ensures Kept(t, s, q)
  {
    hide Basic, Placed;
    FrozenTrans(s, r, q);
  }

  lemma KeptRefl(t: Topo, s: State)
    requires Basic(t, s)
    ensures Kept(t, s, s)
  {
    hide Basic, Placed;
  }

  lemma KeptMeans(t: Topo, s: State, r: State)
    requires Kept(t, s, r)
    ensures Basic(t, r) && r.irq.Keys == s.irq.Keys && r.db == s.db
  {
  }

  /** Only balanced interrupts carry the moved flag. */
  lemma MovedIsBalanced(s: State, i: IrqId)
    requires Owned(s) && i in s.irq && s.irq[i].moved
    ensures s.irq[i].level != NoBalance
  {
  }

  // ---- elementary steps

  /** Changes outside the lists: loads, counters, flags, slots in range, a home interrupt becoming unbalanced. */
  lemma QuietSafe(t: Topo, s: State, r: State)
    requires Basic(t, s) && Quiet(s, r) && r.writes == s.writes
    requires forall i :: i in s.irq ==> r.irq[i].node == s.irq[i].node && r.irq[i].last <= r.irq[i].count
    requires forall o :: o in s.obj && o in t.at && SlotOk(t.at[o].kind, s.obj[o]) ==> SlotOk(t.at[o].kind, r.obj[o])
    requires forall o :: o in s.obj && s.obj[o].slots == 0 ==> r.obj[o].slots == 0
    ensures Basic(t, r) && Frozen(s, r) && (Placed(t, s) ==> Placed(t, r))
  {
    hide Owned, Shaped, Reach, SlotOk;
    QuietOwned(s, r);
  }

  lemma QuietKept(t: Topo, s: State, r: State)
    requires Basic(t, s) && Quiet(s, r) && r.writes == s.writes && SameMarks(s, r)
    requires forall i :: i in s.irq ==> r.irq[i].node == s.irq[i].node && r.irq[i].last <= r.irq[i].count
    requires forall o :: o in s.obj && o in t.at && SlotOk(t.at[o].kind, s.obj[o]) ==> SlotOk(t.at[o].kind, r.obj[o])
    requires forall o :: o in s.obj && s.obj[o].slots == 0 ==> r.obj[o].slots == 0
    ensures Kept(t, s, r)
  {
    hide Owned, Shaped, Reach, SlotOk, Frozen, Placed, SameMarks;
    QuietSafe(t, s, r);
  }

  /** Changing one interrupt's counters and flags, or making it unbalanced at its home. */
  lemma IrqSafe(t: Topo, s: State, i: IrqId, q: Irq)
    requires Basic(t, s) && i in s.irq
    requires q.home == s.irq[i].home && q.node == s.irq[i].node && q.last <= q.count
    requires q.level == s.irq[i].level || (q.level == NoBalance && q.home.Some?)
    requires q.level == NoBalance ==> !q.moved
    ensures
      var r := WithIrq(s, i, q);
      Basic(t, r) && Frozen(s, r) && (Placed(t, s) ==> Placed(t, r))
  {
    hide Frozen, Placed, FoundAt, NoRepeat, NoDup, Shaped, SlotOk;
    var r := WithIrq(s, i, q);
    assert Registered(s);
    assert Quiet(s, r);
    QuietSafe(t, s, r);
  }

  lemma IrqKept(t: Topo, s: State, i: IrqId, q: Irq)
    requires Basic(t, s) && i in s.irq
    requires q.existing == s.irq[i].existing && q.count == s.irq[i].count && q.last == s.irq[i].last
    requires q.home == s.irq[i].home && q.node == s.irq[i].node && q.last <= q.count
    requires q.level == s.irq[i].level || (q.level == NoBalance && q.home.Some?)
    requires q.level == NoBalance ==> !q.moved
    ensures Kept(t, s, WithIrq(s, i, q))
  {
    hide Frozen, Placed, Basic;
    IrqSafe(t, s, i, q);
  }

  /** Logging one write of a balanced interrupt. */
  lemma LogKept(t: Topo, s: State, w: Write)
    requires Basic(t, s) && w.irq in s.irq && s.irq[w.irq].level != NoBalance
    ensures Kept(t, s, s.(writes := s.writes + [w]))
  {
    hide Shaped, Reach, SlotOk;
    var r := s.(writes := s.writes + [w]);
    QuietWrites(s, r);
  }

  lemma QuietWrites(s: State, r: State)
    requires Owned(s) && r == s.(writes := r.writes)
    ensures Owned(r)
  {
    hide NoDup;
    assert forall x, at :: FoundAt(r, x, at) <==> FoundAt(s, x, at);
    forall at
      ensures NoRepeat(r, at)
    {
      assert NoRepeat(s, at);
    }
  }

  lemma MigrateSlots(t: Topo, s: State, from: Option<ObjId>, to: Option<ObjId>, i: IrqId, o: ObjId)
    requires HomeKnown(s, i) && i in ListAt(s, s.irq[i].home)
    requires from.None? || from == s.irq[i].home
    requires to.Some? ==> to.value in s.obj && to.value in t.at && s.obj[to.value].slots > 0
    requires o in s.obj && o in t.at && SlotOk(t.at[o].kind, s.obj[o])
    ensures
      var r := MigrateObj(s, from, to, i);
      && o in r.obj && SlotOk(t.at[o].kind, r.obj[o])
      && r.obj[o].powersave == s.obj[o].powersave && r.obj[o].irqCount == s.obj[o].irqCount
      && r.obj[o].load == s.obj[o].load + (if to == Some(o) then s.irq[i].load + 1 else 0)
      && (to != Some(o) ==> r.obj[o].slots >= s.obj[o].slots)
  {
    hide Drop;
  }

  lemma MigrateElsewhere(s: State, from: Option<ObjId>, to: Option<ObjId>, i: IrqId, o: ObjId)
    requires HomeKnown(s, i) && i in ListAt(s, s.irq[i].home)
    requires from.None? || from == s.irq[i].home
    requires to.Some? ==> to.value in s.obj
    requires o in s.obj && s.irq[i].home != Some(o) && to != Some(o)
    ensures o in MigrateObj(s, from, to, i).obj && MigrateObj(s, from, to, i).obj[o] == s.obj[o]
  {
    hide Drop;
  }

  /** migrate_irq_obj to the rebalance list or to a reachable object with a free slot. */
  lemma MigrateKept(t: Topo, s: State, from: Option<ObjId>, to: Option<ObjId>, i: IrqId)
    requires Basic(t, s) && Movable(s, i) && s.irq[i].level != NoBalance
    requires from.None? || from == s.irq[i].home
    requires to.Some? ==> to.value in s.obj
    requires to.Some? && Placed(t, s) ==> to.value in Reach(t) && s.obj[to.value].slots > 0
    ensures Kept(t, s, MigrateObj(s, from, to, i))
  {
    hide MigrateObj, Owned, Shaped, Reach, SlotOk, Movable, FoundAt;
    MovableMeans(s, i);
    MigrateOwned(s, from, to, i);
    MigrateFound(s, from, to, i);
    var r := MigrateObj(s, from, to, i);
    if Placed(t, s) {
      forall o | o in Reach(t) && o in r.obj && o in t.at
        ensures SlotOk(t.at[o].kind, r.obj[o])
      {
        MigrateSlots(t, s, from, to, i, o);
      }
      forall o | o in r.obj && o !in Reach(t)
        ensures r.obj[o].slots == 0
      {
        MigrateElsewhere(s, from, to, i, o);
      }
    }
  }

  lemma MovableMeans(s: State, i: IrqId)
    requires Movable(s, i)
    ensures HomeKnown(s, i) && i in s.db && i in ListAt(s, s.irq[i].home)
  {
  }

  lemma ForceKept(t: Topo, s: State, i: IrqId)
    requires Basic(t, s) && i in s.irq && (s.irq[i].home.Some? || s.irq[i].level == NoBalance)
    ensures HomeKnown(s, i) && Kept(t, s, ForceRebalance(s, i))
  {
    hide MigrateObj, Owned, Fits, Placed, Movable, Kept;
    ForceOwned(s, i);
    if s.irq[i].level == NoBalance {
      KeptRefl(t, s);
    } else {
      assert i in s.db by { InDb(s, i); }
      OwnedMovable(s, i);
      MigrateKept(t, s, s.irq[i].home, None, i);
    }
  }

  lemma InDb(s: State, i: IrqId)
    requires Owned(s) && i in s.irq && s.irq[i].level != NoBalance
    ensures i in s.db
  {
    hide FoundAt, NoRepeat;
  }
}
