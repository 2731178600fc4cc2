/** Picking interrupts off loaded objects (irqlist.c), with 64-bit unsigned arithmetic spelled out. */
module Select {
  import opened Bits
  import opened Topology
  import opened Irqs
  import opened Invariant
  import opened Placement
  import opened Load

  /** The running figures of struct load_balance_info. */
  datatype Figures = Figures(minLoad: int, adjustmentLoad: int)

  /** a - b as the machine computes it on unsigned 64-bit numbers, or exactly. */
  function Minus(a: int, b: int, machine: bool): int {
    if machine && a < b then a - b + 0x1_0000_0000_0000_0000 else a - b
  }

  /** May this interrupt be moved at all? */
  predicate Candidate(s: State, i: IrqId)
    requires HomeKnown(s, i) && s.irq[i].home.Some?
  {
    s.irq[i].level != NoBalance && |s.obj[s.irq[i].home.value].irqs| > 1 && s.irq[i].load > 1
  }

  /** The extra room that the migrate ratio gives. */
  function Delta(f: Figures, ratio: nat, machine: bool): int {
    if ratio > 0 then Minus(f.adjustmentLoad, f.minLoad, machine) / ratio else 0
  }

  /** Would moving the load not swap the imbalance? */
  predicate Accept(f: Figures, load: nat, ratio: nat, machine: bool) {
    f.minLoad + load < Delta(f, ratio, machine) + Minus(f.adjustmentLoad, load, machine)
  }

  function After(f: Figures, load: nat, machine: bool): Figures {
    var adj := Minus(f.adjustmentLoad, load, machine);
    Figures(if f.minLoad + load > adj then adj else f.minLoad + load, adj)
  }

  datatype Pick = Pick(state: State, figures: Figures, taken: seq<IrqId>)

  /** move_candidate_irqs */
  function Consider(p: Pick, i: IrqId, ratio: nat, machine: bool): (r: Pick)
    requires Linked(p.state) && i in p.state.irq && p.state.irq[i].home.Some?
    ensures SameFrame(p.state, r.state)
  {
    var s := p.state;
    assert HomeKnown(s, i);
    if Candidate(s, i) && Accept(p.figures, s.irq[i].load, ratio, machine) then
      FrameForce(s, i);
      Pick(ForceRebalance(s, i), After(p.figures, s.irq[i].load, machine), p.taken + [i])
    else p
  }

  // ---- one decision, in exact arithmetic

  /**
   For any migrate ratio an accepted interrupt strictly shrinks the absolute difference between the source's load and
   the minimum, overshooting or not; the figures carried on are clamped so that their gap never goes below zero.
   */
  lemma GapShrinks(f: Figures, load: nat, ratio: nat)
    requires load > 1 && f.minLoad <= f.adjustmentLoad && Accept(f, load, ratio, false)
    ensures
      var g := After(f, load, false);
      && 0 <= g.adjustmentLoad - g.minLoad < f.adjustmentLoad - f.minLoad
    ensures
      var d := (f.adjustmentLoad - load) - (f.minLoad + load);
      d < f.adjustmentLoad - f.minLoad && -d < f.adjustmentLoad - f.minLoad
  {
    var gap := f.adjustmentLoad - f.minLoad;
    if ratio > 0 { DivSmaller(gap, ratio); }
  }

  lemma DivSmaller(a: nat, b: nat)
    requires b > 0
    ensures 0 <= a / b <= a
  {
    Quotient(a, b, a / b, a % b);
  }

  lemma Quotient(a: nat, b: nat, q: nat, r: nat)
    requires b > 0 && a == b * q + r
    ensures q <= a
  {
    Scale(1, b, q);
  }

  /** Machine and exact arithmetic agree while no subtraction can go below zero. */
  lemma NoWrap(f: Figures, load: nat, ratio: nat)
    requires f.minLoad <= f.adjustmentLoad && load <= f.adjustmentLoad
    ensures Accept(f, load, ratio, true) == Accept(f, load, ratio, false)
    ensures After(f, load, true) == After(f, load, false)
  {
  }

  // ---- the interrupts of one object

  lemma ConsiderKept(t: Topo, p: Pick, i: IrqId, ratio: nat, machine: bool)
    requires Basic(t, p.state) && Linked(p.state) && i in p.state.irq && p.state.irq[i].home.Some?
    ensures
      var r := Consider(p, i, ratio, machine);
      Kept(t, p.state, r.state) && OthersSame(p.state, r.state, i)
  {
    hide Kept, ForceRebalance, Owned, Shaped, Candidate, Accept;
    KeptRefl(t, p.state);
    assert HomeKnown(p.state, i);
    ForceKept(t, p.state, i);
    ForceOthers(p.state, i);
  }

  lemma ForceOthers(s: State, i: IrqId)
    requires HomeKnown(s, i)
    ensures OthersSame(s, ForceRebalance(s, i), i)
  {
    hide MigrateObj;
    if s.irq[i].level != NoBalance && s.irq[i].home.Some? { MigrateOthers(s, s.irq[i].home, None, i); }
  }

  /** for_each_irq(obj->interrupts, move_candidate_irqs): the interrupts of o in the order of `list`. */
  ghost function ConsiderAll(t: Topo, p: Pick, o: ObjId, list: seq<IrqId>, ratio: nat, machine: bool): (r: Pick)
    requires Basic(t, p.state) && AllAt(p.state, list, o) && NoDup(list)
    ensures Kept(t, p.state, r.state)
    ensures Basic(t, r.state) && r.state.irq.Keys == p.state.irq.Keys
    ensures forall x :: x in p.state.irq && x !in list ==> r.state.irq[x] == p.state.irq[x]
    ensures forall x :: x in p.state.irq ==> r.state.irq[x].load == p.state.irq[x].load
  {
    if |list| == 0 then KeptRefl(t, p.state); p
    else
      var q := ConsiderAll(t, p, o, list[..|list| - 1], ratio, machine);
      ConsiderNext(t, p, q, o, list, ratio, machine);
      Consider(q, list[|list| - 1], ratio, machine)
  }

  lemma ConsiderNext(t: Topo, p: Pick, q: Pick, o: ObjId, list: seq<IrqId>, ratio: nat, machine: bool)
    requires Basic(t, p.state) && AllAt(p.state, list, o) && NoDup(list) && |list| > 0
    requires Kept(t, p.state, q.state) && Basic(t, q.state) && q.state.irq.Keys == p.state.irq.Keys
    requires forall x :: x in p.state.irq && x !in list[..|list| - 1] ==> q.state.irq[x] == p.state.irq[x]
    requires forall x :: x in p.state.irq ==> q.state.irq[x].load == p.state.irq[x].load
    ensures
      var i := list[|list| - 1];
      && Linked(q.state) && i in q.state.irq && q.state.irq[i].home == Some(o)
      && var r := Consider(q, i, ratio, machine);
         && Kept(t, p.state, r.state) && Basic(t, r.state) && r.state.irq.Keys == p.state.irq.Keys
         && (forall x :: x in p.state.irq && x !in list ==> r.state.irq[x] == p.state.irq[x])
         && (forall x :: x in p.state.irq ==> r.state.irq[x].load == p.state.irq[x].load)
  {
    hide Kept, Owned, Shaped, Fits, Consider, Linked;
    var i, init := list[|list| - 1], list[..|list| - 1];
    assert i !in init;
    assert i in list;
    OwnedLinked(q.state);
    ConsiderKept(t, q, i, ratio, machine);
    var r := Consider(q, i, ratio, machine);
    KeptMeans(t, q.state, r.state);
    KeptTrans(t, p.state, q.state, r.state);
  }

  /** Loads of a list of interrupts, added up. */
  ghost function LoadSum(s: State, l: seq<IrqId>): nat
    requires forall i :: i in l ==> i in s.irq
  {
    if |l| == 0 then 0 else LoadSum(s, l[..|l| - 1]) + s.irq[l[|l| - 1]].load
  }

  lemma {:induction false} BigSnoc(s: State, l: seq<IrqId>)
    requires |l| > 0 && forall i :: i in l ==> i in s.irq
    ensures
      var i := l[|l| - 1];
      BigSum(s, l) == BigSum(s, l[..|l| - 1]) + if s.irq[i].load > 1 then s.irq[i].load else 0
  {
    if |l| == 1 {
      assert l[1..] == [] && l[..0] == [];
    } else {
      assert l[..|l| - 1][1..] == l[1..][..|l[1..]| - 1];
      BigSnoc(s, l[1..]);
    }
  }

  /** What the walk over one object does to the figures. */
  ghost predicate Walked(s: State, p: Pick, r: Pick, l: seq<IrqId>) {
    && p.taken <= r.taken
    && (forall i :: i in r.taken[|p.taken|..] ==> i in s.irq)
    && r.figures.adjustmentLoad == p.figures.adjustmentLoad - LoadSum(s, r.taken[|p.taken|..])
    && (forall i :: i in l ==> i in s.irq) && LoadSum(s, r.taken[|p.taken|..]) <= BigSum(s, l)
    && r.figures.minLoad <= r.figures.adjustmentLoad
    && r.figures.adjustmentLoad - r.figures.minLoad <= p.figures.adjustmentLoad - p.figures.minLoad
    && (r.taken != p.taken ==> r.figures.adjustmentLoad - r.figures.minLoad < p.figures.adjustmentLoad - p.figures.minLoad)
  }

  /**
   If the loads above 1 fit in what is left of the object's load, no subtraction wraps during the
   whole walk: machine arithmetic takes the same decisions as exact arithmetic.
   */
  lemma {:induction false} WalkExact(t: Topo, p: Pick, o: ObjId, list: seq<IrqId>, ratio: nat)
    requires Basic(t, p.state) && AllAt(p.state, list, o) && NoDup(list)
    requires p.figures.minLoad <= p.figures.adjustmentLoad && BigSum(p.state, list) <= p.figures.adjustmentLoad
    ensures ConsiderAll(t, p, o, list, ratio, true) == ConsiderAll(t, p, o, list, ratio, false)
    ensures Walked(p.state, p, ConsiderAll(t, p, o, list, ratio, false), list)
    decreases |list|
  {
    hide Basic, Kept, ForceRebalance, Accept, After, BigSum, OthersSame, SameFrame, Linked, Walked, Consider, HomeKnown, Candidate, NoDup;
    if |list| == 0 {
      WalkedNone(p.state, p);
    } else {
      var init, i := list[..|list| - 1], list[|list| - 1];
      LastApart(list);
      BigSnoc(p.state, list);
      WalkExact(t, p, o, init, ratio);
      var q := ConsiderAll(t, p, o, init, ratio, false);
      assert init + [i] == list;
      assert i in list;
      BasicLinked(t, q.state);
      WalkStep(t, p, q, i, init, ratio);
    }
  }

  lemma WalkedNone(s: State, p: Pick)
    requires p.figures.minLoad <= p.figures.adjustmentLoad
    ensures Walked(s, p, p, [])
  {
    assert p.taken[|p.taken|..] == [];
    BigEmpty(s);
  }

  lemma BasicLinked(t: Topo, s: State)
    requires Basic(t, s)
    ensures Linked(s)
  {
    OwnedLinked(s);
  }

  lemma BigEmpty(s: State)
    ensures BigSum(s, []) == 0 && LoadSum(s, []) == 0
  {
  }

  lemma WalkStep(t: Topo, p: Pick, q: Pick, i: IrqId, init: seq<IrqId>, ratio: nat)
    requires Basic(t, q.state) && Linked(q.state) && i in q.state.irq && q.state.irq[i].home.Some?
    requires i in p.state.irq && q.state.irq[i].load == p.state.irq[i].load
    requires p.figures.minLoad <= p.figures.adjustmentLoad && Walked(p.state, p, q, init)
    requires (forall x :: x in init + [i] ==> x in p.state.irq) && BigSum(p.state, init + [i]) <= p.figures.adjustmentLoad
    requires BigSum(p.state, init + [i]) == BigSum(p.state, init) + if p.state.irq[i].load > 1 then p.state.irq[i].load else 0
    ensures Consider(q, i, ratio, true) == Consider(q, i, ratio, false)
    ensures Walked(p.state, p, Consider(q, i, ratio, false), init + [i])
  {
    hide Basic, ForceRebalance, BigSum, Linked, SameFrame, Accept, After, Walked, Candidate;
    var load := q.state.irq[i].load;
    LinkedKnows(q.state, i);
    var r := Consider(q, i, ratio, false);
    WalkedFigures(p.state, p, q, init);
    if Candidate(q.state, i) {
      WorthMoving(q.state, i);
      NoWrap(q.figures, load, ratio);
      if Accept(q.figures, load, ratio, false) {
        GapShrinks(q.figures, load, ratio);
        AfterAdj(q.figures, load);
        WalkedMore(p.state, p, q, r, i, init);
      }
    }
    if r == q { WalkedSame(p.state, p, q, i, init); }
  }

  lemma WorthMoving(s: State, i: IrqId)
    requires HomeKnown(s, i) && s.irq[i].home.Some? && Candidate(s, i)
    ensures s.irq[i].load > 1
  {
  }

  lemma WalkedFigures(s: State, p: Pick, q: Pick, l: seq<IrqId>)
    requires Walked(s, p, q, l)
    ensures q.figures.minLoad <= q.figures.adjustmentLoad && (forall i :: i in l ==> i in s.irq)
    ensures p.figures.adjustmentLoad - BigSum(s, l) <= q.figures.adjustmentLoad
  {
    hide LoadSum, BigSum;
  }

  lemma WalkedSame(s: State, p: Pick, q: Pick, i: IrqId, init: seq<IrqId>)
    requires Walked(s, p, q, init) && (forall x :: x in init + [i] ==> x in s.irq)
    requires (forall x :: x in init ==> x in s.irq) && BigSum(s, init + [i]) >= BigSum(s, init)
    ensures Walked(s, p, q, init + [i])
  {
    hide LoadSum, BigSum;
  }

  /** One more interrupt taken. */
  lemma WalkedMore(s: State, p: Pick, q: Pick, r: Pick, i: IrqId, init: seq<IrqId>)
    requires Walked(s, p, q, init) && (forall x :: x in init + [i] ==> x in s.irq) && i in s.irq
    requires (forall x :: x in init ==> x in s.irq) && BigSum(s, init + [i]) == BigSum(s, init) + s.irq[i].load
    requires r.taken == q.taken + [i] && r.figures.adjustmentLoad == q.figures.adjustmentLoad - s.irq[i].load
    requires 0 <= r.figures.adjustmentLoad - r.figures.minLoad < q.figures.adjustmentLoad - q.figures.minLoad
    ensures Walked(s, p, r, init + [i])
  {
    hide LoadSum, BigSum;
    TakenMore(s, p.taken, q.taken, i);
  }

  lemma TakenMore(s: State, before: seq<IrqId>, taken: seq<IrqId>, i: IrqId)
    requires before <= taken && (forall x :: x in taken[|before|..] ==> x in s.irq) && i in s.irq
    ensures
      var more := (taken + [i])[|before|..];
      && before <= taken + [i] && more == taken[|before|..] + [i] && (forall x :: x in more ==> x in s.irq)
      && LoadSum(s, more) == LoadSum(s, taken[|before|..]) + s.irq[i].load
  {
    var more := (taken + [i])[|before|..];
    assert more == taken[|before|..] + [i];
    assert more[..|more| - 1] == taken[|before|..];
  }

  lemma AfterAdj(f: Figures, load: nat)
    ensures After(f, load, false).adjustmentLoad == f.adjustmentLoad - load
  {
  }

  /** With migrate ratio 0 the loads taken from one object total less than half its initial gap. */
  lemma {:induction false} WalkHalf(t: Topo, p: Pick, o: ObjId, list: seq<IrqId>)
    requires Basic(t, p.state) && AllAt(p.state, list, o) && NoDup(list)
    ensures
      var r := ConsiderAll(t, p, o, list, 0, false);
      && p.taken <= r.taken && (forall i :: i in r.taken[|p.taken|..] ==> i in p.state.irq)
      && var sum := LoadSum(p.state, r.taken[|p.taken|..]);
         && (r.taken == p.taken ==> r.figures == p.figures)
         && (r.taken != p.taken ==>
               r.figures.adjustmentLoad - r.figures.minLoad == p.figures.adjustmentLoad - p.figures.minLoad - 2 * sum > 0)
    decreases |list|
  {
    hide Basic, Kept, ForceRebalance, OthersSame, SameFrame, Linked, HomeKnown, LoadSum, Candidate, Accept, After;
    if |list| == 0 {
      assert p.taken[|p.taken|..] == [];
    } else {
      var init, i := list[..|list| - 1], list[|list| - 1];
      assert i !in init;
      assert i in list;
      WalkHalf(t, p, o, init);
      var q := ConsiderAll(t, p, o, init, 0, false);
      BasicLinked(t, q.state);
      LinkedKnows(q.state, i);
      if Candidate(q.state, i) && Accept(q.figures, q.state.irq[i].load, 0, false) {
        TakenMore(p.state, p.taken, q.taken, i);
        HalfStep(q.figures, q.state.irq[i].load);
        BigEmpty(p.state);
        if q.taken == p.taken { assert q.taken[|p.taken|..] == []; }
      }
    }
  }

  lemma HalfStep(f: Figures, load: nat)
    requires Accept(f, load, 0, false)
    ensures
      var g := After(f, load, false);
      g.adjustmentLoad - g.minLoad == f.adjustmentLoad - f.minLoad - 2 * load > 0
  {
  }

  // ---- lists after a forced rebalance

  lemma {:induction false} BigDrop(s: State, l: seq<IrqId>, i: IrqId)
    requires forall x :: x in l ==> x in s.irq
    ensures forall x :: x in Drop(l, i) ==> x in l
    ensures BigSum(s, Drop(l, i)) <= BigSum(s, l)
  {
    if |l| > 0 && l[0] != i {
      BigDrop(s, l[1..], i);
      assert ([l[0]] + Drop(l[1..], i))[1..] == Drop(l[1..], i);
    }
  }

  /** force_rebalance_irq takes the interrupt off its own list and touches no other object's list or load. */
  lemma ForceLists(t: Topo, s: State, i: IrqId, x: ObjId)
    requires Basic(t, s) && i in s.irq && s.irq[i].home.Some? && s.irq[i].level != NoBalance && x in s.obj
    ensures HomeKnown(s, i)
    ensures
      var r := ForceRebalance(s, i);
      && x in r.obj && r.obj[x].load == s.obj[x].load
      && r.obj[x].irqs == (if s.irq[i].home == Some(x) then Drop(s.obj[x].irqs, i) else s.obj[x].irqs)
      && (s.irq[i].home == Some(x) ==> |r.obj[x].irqs| == |s.obj[x].irqs| - 1)
  {
    hide Owned, Shaped, MigrateObj, Drop, Movable, NoDup;
    InDb(s, i);
    OwnedMovable(s, i);
    MovableMeans(s, i);
    MigrateListAt(s, s.irq[i].home, None, i, Some(x));
    ToWaiting(s, i, x);
    OwnedLists(s);
    if s.irq[i].home == Some(x) { DropElems(s.obj[x].irqs, i); }
  }

  lemma ToWaiting(s: State, i: IrqId, x: ObjId)
    requires HomeKnown(s, i) && s.irq[i].home.Some? && x in s.obj
    ensures x in MigrateObj(s, s.irq[i].home, None, i).obj && MigrateObj(s, s.irq[i].home, None, i).obj[x].load == s.obj[x].load
  {
    hide Drop;
  }

  ghost predicate AllBounded(s: State) { forall o :: o in s.obj ==> Bounded(s, o) }

  lemma ConsiderBounded(t: Topo, p: Pick, i: IrqId, ratio: nat, machine: bool)
    requires Basic(t, p.state) && Linked(p.state) && i in p.state.irq && p.state.irq[i].home.Some? && AllBounded(p.state)
    ensures AllBounded(Consider(p, i, ratio, machine).state)
  {
    hide Owned, Shaped, ForceRebalance, Accept, BigSum;
    var s, r := p.state, Consider(p, i, ratio, machine).state;
    LinkedKnows(s, i);
    if r != s { ForceBounded(t, s, i); }
  }

  lemma ForceBounded(t: Topo, s: State, i: IrqId)
    requires Basic(t, s) && i in s.irq && s.irq[i].home.Some? && AllBounded(s)
    ensures HomeKnown(s, i) && AllBounded(ForceRebalance(s, i))
  {
    hide Owned, Shaped, BigSum, MigrateObj, Drop;
    BasicLinked(t, s);
    LinkedKnows(s, i);
    if s.irq[i].level != NoBalance {
      var r := ForceRebalance(s, i);
      ForceKept(t, s, i);
      ForceOthers(s, i);
      forall x | x in r.obj
        ensures Bounded(r, x)
      {
        KeptObjects(t, s, r);
        ForceLists(t, s, i, x);
        assert Bounded(s, x);
        BigDrop(s, s.obj[x].irqs, i);
        SameBig(s, r, r.obj[x].irqs);
      }
    }
  }

  lemma KeptObjects(t: Topo, s: State, r: State)
    requires Basic(t, s) && Kept(t, s, r)
    ensures r.obj.Keys == s.obj.Keys
  {
    hide Owned, Shaped;
  }

  lemma {:induction false} WalkBounded(t: Topo, p: Pick, o: ObjId, list: seq<IrqId>, ratio: nat, machine: bool)
    requires Basic(t, p.state) && AllAt(p.state, list, o) && NoDup(list) && AllBounded(p.state)
    ensures AllBounded(ConsiderAll(t, p, o, list, ratio, machine).state)
    decreases |list|
  {
    hide Basic, Kept, Consider, AllBounded, Linked;
    if |list| > 0 {
      var init, i := list[..|list| - 1], list[|list| - 1];
      assert i !in init;
      assert i in list;
      WalkBounded(t, p, o, init, ratio, machine);
      var q := ConsiderAll(t, p, o, init, ratio, machine);
      BasicLinked(t, q.state);
      ConsiderBounded(t, q, i, ratio, machine);
    }
  }

  /** The selection never takes an object's last interrupt. */
  lemma {:induction false} WalkLeavesOne(t: Topo, p: Pick, o: ObjId, list: seq<IrqId>, ratio: nat, machine: bool)
    requires Basic(t, p.state) && AllAt(p.state, list, o) && NoDup(list) && o in p.state.obj && |p.state.obj[o].irqs| >= 1
    ensures
      var r := ConsiderAll(t, p, o, list, ratio, machine).state;
      o in r.obj && |r.obj[o].irqs| >= 1
    decreases |list|
  {
    hide Basic, Kept, ForceRebalance, Accept, Linked;
    if |list| > 0 {
      var init, i := list[..|list| - 1], list[|list| - 1];
      assert i !in init;
      assert i in list;
      WalkLeavesOne(t, p, o, init, ratio, machine);
      var q := ConsiderAll(t, p, o, init, ratio, machine);
      BasicLinked(t, q.state);
      LinkedKnows(q.state, i);
      if Candidate(q.state, i) { ForceLists(t, q.state, i, o); }
    }
  }

  // ---- one object, one list of objects, all lists

  lemma {:induction false} BigInsert(s: State, i: IrqId, l: seq<IrqId>)
    requires i in s.irq && forall x :: x in l ==> x in s.irq
    ensures forall x :: x in Insert(s, i, l) ==> x in s.irq
    ensures BigSum(s, Insert(s, i, l)) == BigSum(s, l) + if s.irq[i].load > 1 then s.irq[i].load else 0
    decreases |l|
  {
    if |l| == 0 {
      assert BigSum(s, [i][1..]) == 0;
    } else if Before(s.irq[i], i, s.irq[l[0]], l[0]) {
      assert ([i] + l)[1..] == l;
    } else {
      BigInsert(s, i, l[1..]);
      assert ([l[0]] + Insert(s, i, l[1..]))[1..] == Insert(s, i, l[1..]);
    }
  }

  lemma {:induction false} BigSort(s: State, l: seq<IrqId>)
    requires forall x :: x in l ==> x in s.irq
    ensures BigSum(s, Sort(s, l)) == BigSum(s, l)
  {
    if |l| > 0 {
      BigSort(s, l[1..]);
      BigInsert(s, l[0], Sort(s, l[1..]));
    }
  }

  /** sort_irq_list(&obj->interrupts) */
  function SortObj(s: State, o: ObjId): State
    requires o in s.obj && forall x :: x in s.obj[o].irqs ==> x in s.irq
  {
    WithObj(s, o, s.obj[o].(irqs := Sort(s, s.obj[o].irqs)))
  }

  lemma SortObjKept(t: Topo, s: State, o: ObjId)
    requires Basic(t, s) && o in s.obj && forall x :: x in s.obj[o].irqs ==> x in s.irq
    ensures
      var r := SortObj(s, o);
      && Kept(t, s, r) && AllAt(r, r.obj[o].irqs, o) && NoDup(r.obj[o].irqs)
      && (AllBounded(s) ==> AllBounded(r))
      && |r.obj[o].irqs| == |s.obj[o].irqs|
  {
    hide Owned, Shaped, Reach, Sort, Bounded, NoDup;
    var r := SortObj(s, o);
    Permuted(s.obj[o].irqs, r.obj[o].irqs);
    assert |multiset(r.obj[o].irqs)| == |multiset(s.obj[o].irqs)|;
    SortObjOwned(s, o);
    OwnedLists(r);
    forall x | x in r.obj && AllBounded(s)
      ensures Bounded(r, x)
    {
      SortObjBounded(s, o, x);
    }
  }

  lemma SortObjBounded(s: State, o: ObjId, x: ObjId)
    requires o in s.obj && (forall x :: x in s.obj[o].irqs ==> x in s.irq) && x in s.obj && Bounded(s, x)
    ensures Bounded(SortObj(s, o), x)
  {
    hide BigSum, Sort;
    var r := SortObj(s, o);
    BigSort(s, s.obj[o].irqs);
    SameBig(s, r, r.obj[x].irqs);
  }

  lemma SortObjOwned(s: State, o: ObjId)
    requires Owned(s) && o in s.obj && forall x :: x in s.obj[o].irqs ==> x in s.irq
    ensures Owned(SortObj(s, o))
  {
    hide Sort, NoDup;
    var r := SortObj(s, o);
    Permuted(s.obj[o].irqs, r.obj[o].irqs);
    assert forall x, at :: FoundAt(r, x, at) <==> FoundAt(s, x, at);
    forall at
      ensures NoRepeat(r, at)
    {
      assert NoRepeat(s, at) && NoRepeat(s, Some(o));
    }
  }

  /** Selection on one object: the state and the raised minimum. */
  datatype Pass = Pass(state: State, minLoad: int)

  /** The part of migrate_overloaded_irqs that moves interrupts. */
  ghost function SelectFrom(t: Topo, p: Pass, o: ObjId, ratio: nat, machine: bool): (r: Pass)
    requires Basic(t, p.state) && o in t.at
    ensures Kept(t, p.state, r.state) && Basic(t, r.state)
  {
    OwnedLists(p.state);
    var s := p.state;
    if s.obj[o].load > p.minLoad && |s.obj[o].irqs| > 1 then
      var s0 := SortObj(s, o);
      SortObjKept(t, s, o);
      KeptMeans(t, s, s0);
      var q := ConsiderAll(t, Pick(s0, Figures(p.minLoad, s0.obj[o].load), []), o, s0.obj[o].irqs, ratio, machine);
      KeptTrans(t, s, s0, q.state);
      Pass(q.state, q.figures.minLoad)
    else KeptRefl(t, s); p
  }

  /** for_each_object(list, migrate_overloaded_irqs) */
  ghost function SelectAll(t: Topo, p: Pass, list: seq<ObjId>, ratio: nat, machine: bool): (r: Pass)
    requires Basic(t, p.state) && forall o :: o in list ==> o in t.at
    ensures Kept(t, p.state, r.state) && Basic(t, r.state)
  {
    if |list| == 0 then KeptRefl(t, p.state); p
    else
      var q := SelectAll(t, p, list[..|list| - 1], ratio, machine);
      var r := SelectFrom(t, q, list[|list| - 1], ratio, machine);
      KeptTrans(t, p.state, q.state, r.state);
      r
  }

  /** gather_load_stats: the smallest load of the list, 0 for an empty list. */
  function MinLoad(s: State, list: seq<ObjId>): (m: nat)
    requires forall o :: o in list ==> o in s.obj
    ensures forall o :: o in list ==> m <= s.obj[o].load
    ensures |list| > 0 ==> exists o :: o in list && m == s.obj[o].load
  {
    if |list| == 0 then 0
    else
      var m := MinLoad(s, list[..|list| - 1]);
      var o := list[|list| - 1];
      assert list == list[..|list| - 1] + [o];
      assert o in list;
      if |list| == 1 || s.obj[o].load < m then s.obj[o].load else m
  }

  /** find_overloaded_objs, without the statistics used for powersaving. */
  ghost function FindOverloaded(t: Topo, s: State, list: seq<ObjId>, ratio: nat, machine: bool): (r: State)
    requires Basic(t, s) && forall o :: o in list ==> o in t.at
    ensures Kept(t, s, r) && Basic(t, r)
  {
    SelectAll(t, Pass(s, MinLoad(s, list)), list, ratio, machine).state
  }

  /** What the load statistics decide about powersaving. */
  datatype Power = NoChange | Enter(cpu: ObjId) | LeaveAll

  ghost function ForceAll(t: Topo, s: State, o: ObjId, list: seq<IrqId>): (r: State)
    requires Basic(t, s) && AllAt(s, list, o) && NoDup(list)
    ensures Kept(t, s, r) && Basic(t, r) && r.irq.Keys == s.irq.Keys
    ensures forall x :: x in s.irq && x !in list ==> r.irq[x] == s.irq[x]
  {
    if |list| == 0 then KeptRefl(t, s); s
    else
      var q := ForceAll(t, s, o, list[..|list| - 1]);
      ForceNext(t, s, q, o, list);
      ForceRebalance(q, list[|list| - 1])
  }

  lemma ForceNext(t: Topo, s: State, q: State, o: ObjId, list: seq<IrqId>)
    requires Basic(t, s) && AllAt(s, list, o) && NoDup(list) && |list| > 0
    requires Kept(t, s, q) && Basic(t, q) && q.irq.Keys == s.irq.Keys
    requires forall x :: x in s.irq && x !in list[..|list| - 1] ==> q.irq[x] == s.irq[x]
    ensures
      var i := list[|list| - 1];
      && i in q.irq && q.irq[i].home == Some(o) && HomeKnown(q, i)
      && var r := ForceRebalance(q, i);
         && Kept(t, s, r) && Basic(t, r) && r.irq.Keys == s.irq.Keys
         && (forall x :: x in s.irq && x !in list ==> r.irq[x] == s.irq[x])
  {
    hide Kept, Basic, ForceRebalance;
    var i, init := list[|list| - 1], list[..|list| - 1];
    assert i !in init;
    assert i in list;
    ForceKept(t, q, i);
    ForceOthers(q, i);
    KeptMeans(t, q, ForceRebalance(q, i));
    KeptTrans(t, s, q, ForceRebalance(q, i));
  }

  /** Entering powersave empties the CPU; leaving clears the flag of every CPU. */
  ghost function PowerStep(t: Topo, s: State, p: Power): (r: State)
    requires Basic(t, s)
    ensures Kept(t, s, r) && Basic(t, r)
  {
    match p
    case NoChange => KeptRefl(t, s); s
    case Enter(c) =>
      if c in t.cpus then
        CpuFlagKept(t, s, {c}, true);
        var s1 := CpuFlags(s, {c}, true);
        OwnedLists(s1);
        var r := ForceAll(t, s1, c, s1.obj[c].irqs);
        KeptTrans(t, s, s1, r);
        r
      else KeptRefl(t, s); s
    case LeaveAll =>
      var all := set c | c in t.cpus;
      CpuFlagKept(t, s, all, false);
      CpuFlags(s, all, false)
  }

  function CpuFlags(s: State, cs: set<ObjId>, on: bool): State {
    s.(obj := map o | o in s.obj :: if o in cs then s.obj[o].(powersave := on) else s.obj[o])
  }

  lemma CpuFlagKept(t: Topo, s: State, cs: set<ObjId>, on: bool)
    requires Basic(t, s) && forall c :: c in cs ==> c in t.cpus
    ensures
      var r := CpuFlags(s, cs, on);
      && Kept(t, s, r) && Basic(t, r) && r.irq == s.irq && (AllBounded(s) ==> AllBounded(r))
      && (forall c :: c in cs ==> c in r.obj)
  {
    hide Kept, FoundAt, NoRepeat, NoDup, BigSum, Shaped, Bounded;
    var r := CpuFlags(s, cs, on);
    CpusAreCpus(t);
    assert Registered(s);
    assert Quiet(s, r);
    QuietKept(t, s, r);
    KeptMeans(t, s, r);
    if AllBounded(s) {
      forall x | x in r.obj
        ensures Bounded(r, x)
      {
        assert Bounded(s, x);
        FlagBounded(s, r, x);
      }
    }
  }

  lemma CpusAreCpus(t: Topo)
    requires Shaped(t)
    ensures forall c :: c in t.cpus ==> c in t.at && t.at[c].kind == Cpu
  {
  }

  lemma FlagBounded(s: State, r: State, x: ObjId)
    requires Bounded(s, x) && r.irq == s.irq && x in r.obj && r.obj[x].irqs == s.obj[x].irqs && r.obj[x].load == s.obj[x].load
    ensures Bounded(r, x)
  {
    hide BigSum;
    SameBig(s, r, r.obj[x].irqs);
  }

  /** update_migration_status */
  ghost function UpdateMigration(t: Topo, s: State, p: Power, ratio: nat, machine: bool): (r: State)
    requires Basic(t, s)
    ensures Kept(t, s, r) && Basic(t, r)
  {
    TreeLists(t);
    var s1 := FindOverloaded(t, s, t.cpus, ratio, machine);
    var s2 := PowerStep(t, s1, p);
    KeptTrans(t, s, s1, s2);
    var s3 := FindOverloaded(t, s2, t.caches, ratio, machine);
    KeptTrans(t, s, s2, s3);
    var s4 := FindOverloaded(t, s3, t.packages, ratio, machine);
    KeptTrans(t, s, s3, s4);
    var s5 := FindOverloaded(t, s4, t.nodes, ratio, machine);
    KeptTrans(t, s, s4, s5);
    s5
  }

  // ---- no object loses its last interrupt

  /** The walk over object o leaves the lists of the others alone. */
  lemma {:induction false} WalkOthers(t: Topo, p: Pick, o: ObjId, list: seq<IrqId>, ratio: nat, machine: bool, x: ObjId)
    requires Basic(t, p.state) && AllAt(p.state, list, o) && NoDup(list) && x in p.state.obj && x != o
    ensures
      var r := ConsiderAll(t, p, o, list, ratio, machine).state;
      x in r.obj && r.obj[x].irqs == p.state.obj[x].irqs
    decreases |list|
  {
    hide Basic, Kept, ForceRebalance, Accept, Linked;
    if |list| > 0 {
      var init, i := list[..|list| - 1], list[|list| - 1];
      assert i !in init;
      assert i in list;
      WalkOthers(t, p, o, init, ratio, machine, x);
      var q := ConsiderAll(t, p, o, init, ratio, machine);
      BasicLinked(t, q.state);
      LinkedKnows(q.state, i);
      if Candidate(q.state, i) { ForceLists(t, q.state, i, x); }
    }
  }

  ghost predicate Busy(s: State, x: ObjId) { x in s.obj && |s.obj[x].irqs| >= 1 }

  lemma SelectFromLeavesOne(t: Topo, p: Pass, o: ObjId, ratio: nat, machine: bool, x: ObjId)
    requires Basic(t, p.state) && o in t.at && Busy(p.state, x)
    ensures Busy(SelectFrom(t, p, o, ratio, machine).state, x)
  {
    hide Owned, Shaped, Kept, ConsiderAll, Sort;
    OwnedLists(p.state);
    var s := p.state;
    if s.obj[o].load > p.minLoad && |s.obj[o].irqs| > 1 {
      var s0 := SortObj(s, o);
      SortObjKept(t, s, o);
      KeptMeans(t, s, s0);
      var pick := Pick(s0, Figures(p.minLoad, s0.obj[o].load), []);
      if x == o {
        WalkLeavesOne(t, pick, o, s0.obj[o].irqs, ratio, machine);
      } else {
        WalkOthers(t, pick, o, s0.obj[o].irqs, ratio, machine, x);
      }
    }
  }

  /** A whole pass of the selection never empties an object. */
  lemma {:induction false} PassLeavesOne(t: Topo, p: Pass, list: seq<ObjId>, ratio: nat, machine: bool, x: ObjId)
    requires Basic(t, p.state) && (forall o :: o in list ==> o in t.at) && Busy(p.state, x)
    ensures Busy(SelectAll(t, p, list, ratio, machine).state, x)
    decreases |list|
  {
    hide Basic, Kept, SelectFrom, Busy;
    if |list| > 0 {
      PassLeavesOne(t, p, list[..|list| - 1], ratio, machine, x);
      SelectFromLeavesOne(t, SelectAll(t, p, list[..|list| - 1], ratio, machine), list[|list| - 1], ratio, machine, x);
    }
  }

  /** Nor do all four passes, except on the CPU that enters powersaving. */
  lemma SelectionLeavesOne(t: Topo, s: State, p: Power, ratio: nat, machine: bool, x: ObjId)
    requires Basic(t, s) && Busy(s, x) && p != Enter(x)
    ensures Busy(UpdateMigration(t, s, p, ratio, machine), x)
  {
    hide Basic, Kept, SelectAll, PowerStep, MinLoad, Busy, Shaped;
    TreeObjects(t, s);
    TreeLists(t);
    PassLeavesOne(t, Pass(s, MinLoad(s, t.cpus)), t.cpus, ratio, machine, x);
    var s1 := FindOverloaded(t, s, t.cpus, ratio, machine);
    PowerLeavesOne(t, s1, p, x);
    var s2 := PowerStep(t, s1, p);
    TreeObjects(t, s2);
    PassLeavesOne(t, Pass(s2, MinLoad(s2, t.caches)), t.caches, ratio, machine, x);
    var s3 := FindOverloaded(t, s2, t.caches, ratio, machine);
    TreeObjects(t, s3);
    PassLeavesOne(t, Pass(s3, MinLoad(s3, t.packages)), t.packages, ratio, machine, x);
    var s4 := FindOverloaded(t, s3, t.packages, ratio, machine);
    TreeObjects(t, s4);
    PassLeavesOne(t, Pass(s4, MinLoad(s4, t.nodes)), t.nodes, ratio, machine, x);
  }

  lemma TreeObjects(t: Topo, s: State)
    requires Basic(t, s)
    ensures Shaped(t) && forall o :: o in t.nodes || o in t.packages || o in t.caches || o in t.cpus ==> o in s.obj
  {
    hide Shaped, Owned;
    TreeLists(t);
  }

  lemma PowerLeavesOne(t: Topo, s: State, p: Power, x: ObjId)
    requires Basic(t, s) && Busy(s, x) && p != Enter(x)
    ensures Busy(PowerStep(t, s, p), x)
  {
    hide Owned, Shaped, Kept, ForceAll;
    match p
    case NoChange =>
    case Enter(c) =>
      if c in t.cpus {
        CpuFlagKept(t, s, {c}, true);
        var s1 := CpuFlags(s, {c}, true);
        OwnedLists(s1);
        ForceAllOthers(t, s1, c, s1.obj[c].irqs, x);
      }
    case LeaveAll =>
  }

  lemma {:induction false} ForceAllOthers(t: Topo, s: State, o: ObjId, list: seq<IrqId>, x: ObjId)
    requires Basic(t, s) && AllAt(s, list, o) && NoDup(list) && x in s.obj && x != o
    ensures x in ForceAll(t, s, o, list).obj && ForceAll(t, s, o, list).obj[x].irqs == s.obj[x].irqs
    decreases |list|
  {
    hide Basic, Kept, ForceRebalance;
    if |list| > 0 {
      ForceAllOthers(t, s, o, list[..|list| - 1], x);
      var q := ForceAll(t, s, o, list[..|list| - 1]);
      ForceNext(t, s, q, o, list);
      var i := list[|list| - 1];
      if q.irq[i].level != NoBalance { ForceLists(t, q, i, x); } else { ForceNone(q, i); }
    }
  }

  lemma ForceNone(s: State, i: IrqId)
    requires HomeKnown(s, i) && s.irq[i].level == NoBalance
    ensures ForceRebalance(s, i) == s
  {
  }

  // ---- no subtraction wraps, over the whole selection

  lemma SelectFromExact(t: Topo, p: Pass, o: ObjId, ratio: nat)
    requires Basic(t, p.state) && o in t.at && AllBounded(p.state)
    ensures SelectFrom(t, p, o, ratio, true) == SelectFrom(t, p, o, ratio, false)
    ensures AllBounded(SelectFrom(t, p, o, ratio, false).state)
  {
    hide Owned, Shaped, Kept, ConsiderAll, BigSum, Sort;
    OwnedLists(p.state);
    var s := p.state;
    if s.obj[o].load > p.minLoad && |s.obj[o].irqs| > 1 {
      var s0 := SortObj(s, o);
      SortObjKept(t, s, o);
      KeptMeans(t, s, s0);
      var pick := Pick(s0, Figures(p.minLoad, s0.obj[o].load), []);
      assert Bounded(s0, o);
      WalkExact(t, pick, o, s0.obj[o].irqs, ratio);
      WalkBounded(t, pick, o, s0.obj[o].irqs, ratio, false);
    }
  }

  lemma {:induction false} SelectAllExact(t: Topo, p: Pass, list: seq<ObjId>, ratio: nat)
    requires Basic(t, p.state) && (forall o :: o in list ==> o in t.at) && AllBounded(p.state)
    ensures SelectAll(t, p, list, ratio, true) == SelectAll(t, p, list, ratio, false)
    ensures AllBounded(SelectAll(t, p, list, ratio, false).state)
    decreases |list|
  {
    hide Basic, Kept, SelectFrom, AllBounded;
    if |list| > 0 {
      SelectAllExact(t, p, list[..|list| - 1], ratio);
      SelectFromExact(t, SelectAll(t, p, list[..|list| - 1], ratio, false), list[|list| - 1], ratio);
    }
  }

  lemma {:induction false} ForceAllBounded(t: Topo, s: State, o: ObjId, list: seq<IrqId>)
    requires Basic(t, s) && AllAt(s, list, o) && NoDup(list) && AllBounded(s)
    ensures AllBounded(ForceAll(t, s, o, list))
    decreases |list|
  {
    hide Basic, Kept, ForceRebalance, AllBounded;
    if |list| > 0 {
      ForceAllBounded(t, s, o, list[..|list| - 1]);
      var q := ForceAll(t, s, o, list[..|list| - 1]);
      ForceNext(t, s, q, o, list);
      ForceBounded(t, q, list[|list| - 1]);
    }
  }

  lemma PowerBounded(t: Topo, s: State, p: Power)
    requires Basic(t, s) && AllBounded(s)
    ensures AllBounded(PowerStep(t, s, p))
  {
    hide Owned, Shaped, Kept, ForceAll, AllBounded, CpuFlags;
    match p
    case NoChange =>
    case Enter(c) =>
      if c in t.cpus {
        CpuFlagKept(t, s, {c}, true);
        var s1 := CpuFlags(s, {c}, true);
        OwnedLists(s1);
        ForceAllBounded(t, s1, c, s1.obj[c].irqs);
      }
    case LeaveAll =>
      CpuFlagKept(t, s, set c | c in t.cpus, false);
  }

  /**
   When every object's attributed loads above 1 fit in its load, update_migration_status takes the
   decisions of exact arithmetic: adjustment_load - info->load never wraps below zero.
   */
  lemma SelectionNeverWraps(t: Topo, s: State, p: Power, ratio: nat)
    requires Basic(t, s) && AllBounded(s)
    ensures UpdateMigration(t, s, p, ratio, true) == UpdateMigration(t, s, p, ratio, false)
  {
    hide Owned, Shaped, Kept, SelectAll, AllBounded, PowerStep, MinLoad;
    TreeLists(t);
    SelectAllExact(t, Pass(s, MinLoad(s, t.cpus)), t.cpus, ratio);
    var s1 := FindOverloaded(t, s, t.cpus, ratio, false);
    PowerBounded(t, s1, p);
    var s2 := PowerStep(t, s1, p);
    SelectAllExact(t, Pass(s2, MinLoad(s2, t.caches)), t.caches, ratio);
    var s3 := FindOverloaded(t, s2, t.caches, ratio, false);
    SelectAllExact(t, Pass(s3, MinLoad(s3, t.packages)), t.packages, ratio);
    var s4 := FindOverloaded(t, s3, t.packages, ratio, false);
    SelectAllExact(t, Pass(s4, MinLoad(s4, t.nodes)), t.nodes, ratio);
  }
}
