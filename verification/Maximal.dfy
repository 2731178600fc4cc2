/** Selection takes all it should: what every object gives up, and how the minimum is carried from one to the next. */
module Maximal {
  import opened Bits
  import opened Topology
  import opened Irqs
  import opened Invariant
  import opened Placement
  import opened Select
  import opened Thinning

  /** Twice a load must stay below this to be worth moving: the gap, and the share of it that the ratio grants. */
  ghost function Room(gap: nat, ratio: nat): nat { gap + if ratio > 0 then gap / ratio else 0 }

  lemma {:induction false} RoomMono(a: nat, b: nat, ratio: nat)
    requires a <= b
    ensures Room(a, ratio) <= Room(b, ratio)
  {
    if ratio > 0 {
      var q, r := a / ratio, b / ratio;
      if q > r { Scale(r + 1, q, ratio); }
    }
  }

  ghost function Gap(f: Figures): int { f.adjustmentLoad - f.minLoad }

  /** The acceptance test in numbers. */
  lemma AcceptExactly(f: Figures, load: nat, ratio: nat)
    requires Gap(f) >= 0
    ensures Accept(f, load, ratio, false) <==> 2 * load < Room(Gap(f), ratio)
  {
  }

  ghost function Min(a: int, b: int): int { if a <= b then a else b }

  // ---- what has left an object

  /** The loads of those in l that are no longer at home at o in r. */
  ghost function Left(s: State, r: State, o: ObjId, l: seq<IrqId>): nat
    requires forall i :: i in l ==> i in s.irq && i in r.irq
  {
    if |l| == 0 then 0 else (if r.irq[l[0]].home == Some(o) then 0 else s.irq[l[0]].load) + Left(s, r, o, l[1..])
  }

  lemma {:induction false} LeftSnoc(s: State, r: State, o: ObjId, l: seq<IrqId>, i: IrqId)
    requires i in s.irq && i in r.irq && forall x :: x in l ==> x in s.irq && x in r.irq
    ensures forall x :: x in l + [i] ==> x in s.irq && x in r.irq
    ensures Left(s, r, o, l + [i]) == Left(s, r, o, l) + if r.irq[i].home == Some(o) then 0 else s.irq[i].load
  {
    if |l| == 0 {
      assert l + [i] == [i];
      assert Left(s, r, o, [i][1..]) == 0;
    } else {
      assert (l + [i])[1..] == l[1..] + [i];
      LeftSnoc(s, r, o, l[1..], i);
    }
  }

  lemma {:induction false} LeftSame(s: State, r: State, q: State, o: ObjId, l: seq<IrqId>)
    requires forall x :: x in l ==> x in s.irq && x in r.irq && x in q.irq && (q.irq[x].home == Some(o) <==> r.irq[x].home == Some(o))
    ensures Left(s, q, o, l) == Left(s, r, o, l)
  {
    if |l| > 0 { LeftSame(s, r, q, o, l[1..]); }
  }

  lemma {:induction false} LeftLoads(s: State, r: State, q: State, o: ObjId, l: seq<IrqId>)
    requires forall x :: x in l ==> x in s.irq && x in r.irq && x in q.irq && q.irq[x].load == s.irq[x].load
    ensures Left(q, r, o, l) == Left(s, r, o, l)
  {
    if |l| > 0 { LeftLoads(s, r, q, o, l[1..]); }
  }

  lemma {:induction false} LeftInsert(s: State, r: State, o: ObjId, i: IrqId, l: seq<IrqId>)
    requires i in s.irq && i in r.irq && forall x :: x in l ==> x in s.irq && x in r.irq
    ensures forall x :: x in Insert(s, i, l) ==> x in s.irq && x in r.irq
    ensures Left(s, r, o, Insert(s, i, l)) == Left(s, r, o, l) + if r.irq[i].home == Some(o) then 0 else s.irq[i].load
    decreases |l|
  {
    if |l| == 0 {
      assert Left(s, r, o, [i][1..]) == 0;
    } else if Before(s.irq[i], i, s.irq[l[0]], l[0]) {
      assert ([i] + l)[1..] == l;
    } else {
      LeftInsert(s, r, o, i, l[1..]);
      assert ([l[0]] + Insert(s, i, l[1..]))[1..] == Insert(s, i, l[1..]);
    }
  }

  lemma {:induction false} LeftSort(s: State, r: State, o: ObjId, l: seq<IrqId>)
    requires forall x :: x in l ==> x in s.irq && x in r.irq
    ensures forall x :: x in Sort(s, l) ==> x in s.irq && x in r.irq
    ensures Left(s, r, o, Sort(s, l)) == Left(s, r, o, l)
  {
    if |l| > 0 {
      LeftSort(s, r, o, l[1..]);
      LeftInsert(s, r, o, l[0], Sort(s, l[1..]));
    }
  }

  // ---- one object

  /**
   The fate of interrupt i of object o. If it stays, it is unbalanced, or not worth moving, or alone, or too heavy
   for the gap that is left; if it goes, it is balanced and was light enough for the gap there was.
   */
  ghost predicate Fate(s: State, r: State, o: ObjId, i: IrqId, before: nat, after: nat, ratio: nat) {
    && i in s.irq && i in r.irq && o in r.obj
    && if r.irq[i].home == Some(o)
       then s.irq[i].level == NoBalance || s.irq[i].load <= 1 || |r.obj[o].irqs| <= 1 || 2 * s.irq[i].load >= Room(after, ratio)
       else s.irq[i].level != NoBalance && s.irq[i].load > 1 && 2 * s.irq[i].load < Room(before, ratio)
  }

  /** The walk over the interrupts of o, in exact arithmetic. */
  ghost predicate Walked2(p: Pick, r: Pick, o: ObjId, l: seq<IrqId>, ratio: nat) {
    && (forall i :: i in l ==> i in p.state.irq && i in r.state.irq)
    && 0 <= Gap(r.figures) <= Gap(p.figures) && p.figures.minLoad <= r.figures.minLoad
    && r.figures.adjustmentLoad == p.figures.adjustmentLoad - Left(p.state, r.state, o, l)
    && r.figures.minLoad == Min(p.figures.minLoad + Left(p.state, r.state, o, l), r.figures.adjustmentLoad)
    && (forall i :: i in l ==> Fate(p.state, r.state, o, i, Gap(p.figures), Gap(r.figures), ratio))
  }

  lemma {:induction false} WalkFates(t: Topo, p: Pick, o: ObjId, list: seq<IrqId>, ratio: nat)
    requires Basic(t, p.state) && AllAt(p.state, list, o) && NoDup(list) && Gap(p.figures) >= 0 && o in p.state.obj
    ensures Walked2(p, ConsiderAll(t, p, o, list, ratio, false), o, list, ratio)
    ensures
      var r := ConsiderAll(t, p, o, list, ratio, false).state;
      o in r.obj && |r.obj[o].irqs| <= |p.state.obj[o].irqs|
    decreases |list|
  {
    hide Basic, Kept, Consider, Walked2;
    if |list| == 0 {
      WalkedNothing(p, o, ratio);
    } else {
      var init, i := list[..|list| - 1], list[|list| - 1];
      LastApart(list);
      assert i in list;
      WalkFates(t, p, o, init, ratio);
      var q := ConsiderAll(t, p, o, init, ratio, false);
      BasicLinked(t, q.state);
      ConsiderFate(t, p, q, o, init, i, ratio);
      assert init + [i] == list;
    }
  }

  lemma WalkedNothing(p: Pick, o: ObjId, ratio: nat)
    requires Gap(p.figures) >= 0
    ensures Walked2(p, p, o, [], ratio)
  {
  }

  /** One candidate more. */
  lemma ConsiderFate(t: Topo, p: Pick, q: Pick, o: ObjId, init: seq<IrqId>, i: IrqId, ratio: nat)
    requires Basic(t, q.state) && Linked(q.state) && i in q.state.irq && q.state.irq[i].home == Some(o) && o in q.state.obj
    requires Walked2(p, q, o, init, ratio) && i !in init && i in p.state.irq && q.state.irq[i] == p.state.irq[i]
    ensures Walked2(p, Consider(q, i, ratio, false), o, init + [i], ratio)
    ensures
      var r := Consider(q, i, ratio, false).state;
      o in r.obj && |r.obj[o].irqs| <= |q.state.obj[o].irqs|
  {
    hide Basic, Linked, ForceRebalance, Accept, After, Walked2, SameFrame, Room;
    LinkedKnows(q.state, i);
    WalkedMeans(p, q, o, init, ratio);
    AcceptExactly(q.figures, q.state.irq[i].load, ratio);
    var r := Consider(q, i, ratio, false);
    if r == q {
      StaysFate(p, q, o, init, i, ratio);
    } else {
      ForceLists(t, q.state, i, o);
      ForceOthers(q.state, i);
      ForcedHome(t, q.state, i);
      GapShrinks(q.figures, q.state.irq[i].load, ratio);
      GoesFate(p, q, r, o, init, i, ratio);
    }
  }

  lemma WalkedMeans(p: Pick, q: Pick, o: ObjId, l: seq<IrqId>, ratio: nat)
    requires Walked2(p, q, o, l, ratio)
    ensures 0 <= Gap(q.figures)
  {
  }

  lemma ForcedHome(t: Topo, s: State, i: IrqId)
    requires Basic(t, s) && HomeKnown(s, i) && s.irq[i].home.Some? && s.irq[i].level != NoBalance
    ensures ForceRebalance(s, i).irq == s.irq[i := s.irq[i].(moved := true, home := None)]
  {
    hide Owned, Shaped, MigrateObj, Movable;
    InDb(s, i);
    OwnedMovable(s, i);
    MovableMeans(s, i);
    MigrateFound(s, s.irq[i].home, None, i);
  }

  lemma StaysFate(p: Pick, q: Pick, o: ObjId, init: seq<IrqId>, i: IrqId, ratio: nat)
    requires Walked2(p, q, o, init, ratio) && i in p.state.irq && i in q.state.irq && q.state.irq[i] == p.state.irq[i]
    requires HomeKnown(q.state, i) && q.state.irq[i].home == Some(o) && o in q.state.obj && Gap(q.figures) >= 0
    requires !(Candidate(q.state, i) && 2 * q.state.irq[i].load < Room(Gap(q.figures), ratio))
    ensures Walked2(p, q, o, init + [i], ratio)
  {
    hide Left, Room;
    LeftSnocOf(p, q, o, init, i);
  }

  lemma LeftSnocOf(p: Pick, q: Pick, o: ObjId, init: seq<IrqId>, i: IrqId)
    requires i in p.state.irq && i in q.state.irq && forall x :: x in init ==> x in p.state.irq && x in q.state.irq
    ensures forall x :: x in init + [i] ==> x in p.state.irq && x in q.state.irq
    ensures Left(p.state, q.state, o, init + [i]) == Left(p.state, q.state, o, init) + if q.state.irq[i].home == Some(o) then 0 else p.state.irq[i].load
  {
    LeftSnoc(p.state, q.state, o, init, i);
  }

  lemma GoesFate(p: Pick, q: Pick, r: Pick, o: ObjId, init: seq<IrqId>, i: IrqId, ratio: nat)
    requires Walked2(p, q, o, init, ratio) && i !in init && i in p.state.irq && i in q.state.irq && q.state.irq[i] == p.state.irq[i]
    requires Gap(q.figures) >= 0 && p.state.irq[i].load > 1 && p.state.irq[i].level != NoBalance
    requires 2 * p.state.irq[i].load < Room(Gap(q.figures), ratio)
    requires r.figures == After(q.figures, p.state.irq[i].load, false) && 0 <= Gap(r.figures) < Gap(q.figures)
    requires r.state.irq == q.state.irq[i := q.state.irq[i].(moved := true, home := None)]
    requires o in q.state.obj && o in r.state.obj && |r.state.obj[o].irqs| <= |q.state.obj[o].irqs|
    ensures Walked2(p, r, o, init + [i], ratio)
  {
    hide Left, Room;
    LeftSame(p.state, q.state, r.state, o, init);
    LeftSnocOf(p, r, o, init, i);
    RoomMono(Gap(r.figures), Gap(q.figures), ratio);
    RoomMono(Gap(q.figures), Gap(p.figures), ratio);
    RoomBound(Gap(q.figures), ratio);
    forall x | x in init + [i]
      ensures Fate(p.state, r.state, o, x, Gap(p.figures), Gap(r.figures), ratio)
    {
      if x != i { assert x in init && Fate(p.state, q.state, o, x, Gap(p.figures), Gap(q.figures), ratio); }
    }
  }

  lemma RoomBound(gap: nat, ratio: nat)
    ensures Room(gap, ratio) <= 2 * gap
  {
    if ratio > 0 { DivSmaller(gap, ratio); }
  }

  // ---- turn by turn

  /** How many of l are no longer at home at o. */
  ghost function Gone(r: State, o: ObjId, l: seq<IrqId>): nat
    requires forall i :: i in l ==> i in r.irq
  {
    if |l| == 0 then 0 else (if r.irq[l[0]].home == Some(o) then 0 else 1) + Gone(r, o, l[1..])
  }

  lemma {:induction false} GoneSnoc(r: State, o: ObjId, l: seq<IrqId>, i: IrqId)
    requires i in r.irq && forall x :: x in l ==> x in r.irq
    ensures forall x :: x in l + [i] ==> x in r.irq
    ensures Gone(r, o, l + [i]) == Gone(r, o, l) + if r.irq[i].home == Some(o) then 0 else 1
  {
    if |l| == 0 {
      assert l + [i] == [i];
      assert Gone(r, o, [i][1..]) == 0;
    } else {
      assert (l + [i])[1..] == l[1..] + [i];
      GoneSnoc(r, o, l[1..], i);
    }
  }

  lemma {:induction false} GoneSame(r: State, q: State, o: ObjId, l: seq<IrqId>)
    requires forall x :: x in l ==> x in r.irq && x in q.irq && (q.irq[x].home == Some(o) <==> r.irq[x].home == Some(o))
    ensures Gone(q, o, l) == Gone(r, o, l)
  {
    if |l| > 0 { GoneSame(r, q, o, l[1..]); }
  }

  /**
   The turn of number k of l, on an object with this load and this many interrupts: it goes if and only if it is
   balanced, has a load above 1, is not the last one there, and twice its load is below the room in the gap between
   what is left of the object's load and the minimum raised by what went before.
   */
  ghost predicate Turn(s: State, r: State, o: ObjId, l: seq<IrqId>, k: nat, load: int, mn: int, many: nat, ratio: nat) {
    && k < |l| && (forall x :: x in l ==> x in s.irq && x in r.irq)
    && var left := Left(s, r, o, l[..k]);
       var low := Min(mn + left, load - left);
       (r.irq[l[k]].home != Some(o) <==>
          && s.irq[l[k]].level != NoBalance && s.irq[l[k]].load > 1
          && many - Gone(r, o, l[..k]) > 1
          && 2 * s.irq[l[k]].load < Room(load - left - low, ratio))
  }

  lemma TurnSame(s: State, q: State, r: State, z: State, o: ObjId, l: seq<IrqId>, k: nat, load: int, mn: int, many: nat, ratio: nat)
    requires Turn(q, r, o, l, k, load, mn, many, ratio)
    requires forall x :: x in l ==> x in s.irq && x in z.irq && s.irq[x].load == q.irq[x].load && s.irq[x].level == q.irq[x].level
    requires forall x :: x in l ==> (z.irq[x].home == Some(o) <==> r.irq[x].home == Some(o))
    ensures Turn(s, z, o, l, k, load, mn, many, ratio)
  {
    hide Left, Gone, Room, Min;
    LeftLoads(s, r, q, o, l[..k]);
    LeftSame(s, r, z, o, l[..k]);
    GoneSame(r, z, o, l[..k]);
  }

  lemma {:induction false} WalkCounts(t: Topo, p: Pick, o: ObjId, list: seq<IrqId>, ratio: nat)
    requires Basic(t, p.state) && AllAt(p.state, list, o) && NoDup(list) && o in p.state.obj
    ensures
      var r := ConsiderAll(t, p, o, list, ratio, false).state;
      o in r.obj && (forall x :: x in list ==> x in r.irq) && |r.obj[o].irqs| + Gone(r, o, list) == |p.state.obj[o].irqs|
    decreases |list|
  {
    hide Basic, Kept, Consider, Gone;
    if |list| == 0 {
      GoneNone(ConsiderAll(t, p, o, list, ratio, false).state, o);
      assert list == [];
    } else {
      var init, i := list[..|list| - 1], list[|list| - 1];
      LastApart(list);
      assert i in list;
      WalkCounts(t, p, o, init, ratio);
      var q := ConsiderAll(t, p, o, init, ratio, false);
      BasicLinked(t, q.state);
      ConsiderCounts(t, q, o, init, i, ratio);
      assert init + [i] == list;
    }
  }

  lemma GoneNone(r: State, o: ObjId)
    ensures Gone(r, o, []) == 0
  {
  }

  /** One candidate more: it goes exactly when it may and is accepted. */
  lemma ConsiderCounts(t: Topo, q: Pick, o: ObjId, init: seq<IrqId>, i: IrqId, ratio: nat)
    requires Basic(t, q.state) && Linked(q.state) && i in q.state.irq && q.state.irq[i].home == Some(o) && o in q.state.obj
    requires i !in init && forall x :: x in init ==> x in q.state.irq
    ensures
      var r := Consider(q, i, ratio, false).state;
      && o in r.obj && (forall x :: x in init + [i] ==> x in r.irq) && (forall x :: x in init ==> r.irq[x] == q.state.irq[x])
      && |r.obj[o].irqs| + Gone(r, o, init + [i]) == |q.state.obj[o].irqs| + Gone(q.state, o, init)
      && (r.irq[i].home != Some(o) <==>
            && q.state.irq[i].level != NoBalance && q.state.irq[i].load > 1 && |q.state.obj[o].irqs| > 1
            && Accept(q.figures, q.state.irq[i].load, ratio, false))
  {
    hide Basic, Linked, ForceRebalance, Accept, After, SameFrame, Gone;
    LinkedKnows(q.state, i);
    var r := Consider(q, i, ratio, false);
    if r != q {
      ForceLists(t, q.state, i, o);
      ForceOthers(q.state, i);
      ForcedHome(t, q.state, i);
    }
    GoneSame(q.state, r.state, o, init);
    GoneSnoc(r.state, o, init, i);
  }

  ghost predicate Turns(s: State, r: State, o: ObjId, l: seq<IrqId>, load: int, mn: int, many: nat, ratio: nat) {
    forall k: nat :: k < |l| ==> Turn(s, r, o, l, k, load, mn, many, ratio)
  }

  lemma {:induction false} WalkTurns(t: Topo, p: Pick, o: ObjId, list: seq<IrqId>, ratio: nat)
    requires Basic(t, p.state) && AllAt(p.state, list, o) && NoDup(list) && Gap(p.figures) >= 0 && o in p.state.obj
    ensures
      var r := ConsiderAll(t, p, o, list, ratio, false).state;
      Turns(p.state, r, o, list, p.figures.adjustmentLoad, p.figures.minLoad, |p.state.obj[o].irqs|, ratio)
    decreases |list|
  {
    hide Basic, Kept, Consider, Turns, Walked2, NoDup, Accept, Gone;
    if |list| == 0 {
      NoTurns(p.state, ConsiderAll(t, p, o, list, ratio, false).state, o, list, p.figures.adjustmentLoad, p.figures.minLoad, |p.state.obj[o].irqs|, ratio);
    } else {
      var init, i := list[..|list| - 1], list[|list| - 1];
      LastApart(list);
      assert i in list;
      WalkTurns(t, p, o, init, ratio);
      WalkFates(t, p, o, init, ratio);
      WalkCounts(t, p, o, init, ratio);
      var q := ConsiderAll(t, p, o, init, ratio, false);
      BasicLinked(t, q.state);
      ConsiderCounts(t, q, o, init, i, ratio);
      LastTurn(p, q, Consider(q, i, ratio, false).state, o, list, ratio);
      TurnsOn(p.state, q.state, Consider(q, i, ratio, false).state, o, list, p.figures.adjustmentLoad, p.figures.minLoad, |p.state.obj[o].irqs|, ratio);
    }
  }

  lemma NoTurns(s: State, r: State, o: ObjId, l: seq<IrqId>, load: int, mn: int, many: nat, ratio: nat)
    requires |l| == 0
    ensures Turns(s, r, o, l, load, mn, many, ratio)
  {
  }

  /** The turns so far are not touched by the last one. */
  lemma TurnsOn(s: State, q: State, r: State, o: ObjId, l: seq<IrqId>, load: int, mn: int, many: nat, ratio: nat)
    requires |l| > 0 && Turns(s, q, o, l[..|l| - 1], load, mn, many, ratio) && Turn(s, r, o, l, |l| - 1, load, mn, many, ratio)
    requires forall x :: x in l ==> x in s.irq && x in r.irq && x in q.irq
    requires forall x :: x in l[..|l| - 1] ==> r.irq[x] == q.irq[x]
    ensures Turns(s, r, o, l, load, mn, many, ratio)
  {
    hide Turn;
    var init, i := l[..|l| - 1], l[|l| - 1];
    assert init + [i] == l;
    forall k: nat | k < |init|
      ensures Turn(s, r, o, l, k, load, mn, many, ratio)
    {
      TurnSame(s, s, q, r, o, init, k, load, mn, many, ratio);
      TurnLonger(s, r, o, init, i, k, load, mn, many, ratio);
    }
  }

  lemma TurnLonger(s: State, r: State, o: ObjId, l: seq<IrqId>, i: IrqId, k: nat, load: int, mn: int, many: nat, ratio: nat)
    requires Turn(s, r, o, l, k, load, mn, many, ratio) && i in s.irq && i in r.irq
    ensures Turn(s, r, o, l + [i], k, load, mn, many, ratio)
  {
    hide Left, Gone, Room, Min;
    assert (l + [i])[..k] == l[..k] && (l + [i])[k] == l[k];
  }

  lemma LastTurn(p: Pick, q: Pick, r: State, o: ObjId, list: seq<IrqId>, ratio: nat)
    requires |list| > 0 && (forall x :: x in list ==> x in p.state.irq && x in q.state.irq && x in r.irq) && o in q.state.obj && o in p.state.obj
    requires
      var init, i := list[..|list| - 1], list[|list| - 1];
      && Walked2(p, q, o, init, ratio) && (forall x :: x in init ==> r.irq[x] == q.state.irq[x])
      && q.state.irq[i] == p.state.irq[i] && |q.state.obj[o].irqs| + Gone(q.state, o, init) == |p.state.obj[o].irqs|
      && (r.irq[i].home != Some(o) <==>
            && q.state.irq[i].level != NoBalance && q.state.irq[i].load > 1 && |q.state.obj[o].irqs| > 1
            && Accept(q.figures, q.state.irq[i].load, ratio, false))
    ensures Turn(p.state, r, o, list, |list| - 1, p.figures.adjustmentLoad, p.figures.minLoad, |p.state.obj[o].irqs|, ratio)
  {
    hide Left, Gone, Room, Accept, Fate;
    var init, i := list[..|list| - 1], list[|list| - 1];
    LeftSame(p.state, q.state, r, o, init);
    GoneSame(q.state, r, o, init);
    AcceptExactly(q.figures, q.state.irq[i].load, ratio);
  }

  /** The interrupts of o, the higher class first, and within a class the higher load. */
  ghost predicate InOrder(s: State, o: ObjId, l: seq<IrqId>) {
    && o in s.obj && multiset(l) == multiset(s.obj[o].irqs) && (forall x :: x in l ==> x in s.irq)
    && forall a, b :: 0 <= a < b < |l| ==>
         s.irq[l[a]].cls >= s.irq[l[b]].cls && (s.irq[l[a]].cls == s.irq[l[b]].cls ==> s.irq[l[a]].load >= s.irq[l[b]].load)
  }

  /** The interrupts of o have had their turns in that order. */
  ghost predicate Chosen(s: State, r: State, o: ObjId, mn: int, ratio: nat) {
    exists l :: InOrder(s, o, l) && ChosenFrom(s, r, o, l, mn, ratio)
  }

  ghost predicate ChosenFrom(s: State, r: State, o: ObjId, l: seq<IrqId>, mn: int, ratio: nat) {
    o in s.obj && Turns(s, r, o, l, s.obj[o].load, mn, |s.obj[o].irqs|, ratio)
  }

  /** What has left o waits. */
  ghost predicate LeftWait(s: State, r: State, o: ObjId) {
    o in s.obj && forall i :: i in s.obj[o].irqs && i in r.irq ==> r.irq[i].home == Some(o) || r.irq[i].home == None
  }

  /**
   What a turn of migrate_overloaded_irqs does to object o when the minimum is mn. Below the minimum or with one
   interrupt: nothing. Else each interrupt has its turn and its fate, and the minimum becomes what it was plus all that
   left, but at most what is left of the object's load.
   */
  ghost predicate Fates(s: State, r: State, o: ObjId, mn: int, mn': int, ratio: nat) {
    && o in s.obj && o in r.obj && (forall i :: i in s.obj[o].irqs ==> i in s.irq && i in r.irq) && LeftWait(s, r, o)
    && if s.obj[o].load > mn && |s.obj[o].irqs| > 1 then
         var gone := Left(s, r, o, s.obj[o].irqs);
         && mn' == Min(mn + gone, s.obj[o].load - gone) && mn <= mn' <= s.obj[o].load - gone && Chosen(s, r, o, mn, ratio)
         && (forall i :: i in s.obj[o].irqs ==> Fate(s, r, o, i, s.obj[o].load - mn, s.obj[o].load - gone - mn', ratio))
       else mn' == mn && forall i :: i in s.obj[o].irqs ==> r.irq[i].home == Some(o)
  }

  lemma SelectFromFates(t: Topo, p: Pass, o: ObjId, ratio: nat, machine: bool)
    requires Basic(t, p.state) && o in t.at && (machine ==> AllBounded(p.state))
    ensures
      var r := SelectFrom(t, p, o, ratio, machine);
      Fates(p.state, r.state, o, p.minLoad, r.minLoad, ratio)
  {
    hide Owned, Shaped, Kept, ConsiderAll, Sort, AllBounded, Walked2, Left, Fate;
    if machine { SelectFromExact(t, p, o, ratio); }
    var s := p.state;
    OwnedLists(s);
    KnownObject(t, s, o);
    if s.obj[o].load > p.minLoad && |s.obj[o].irqs| > 1 {
      var s0 := SortObj(s, o);
      SortObjKept(t, s, o);
      KeptMeans(t, s, s0);
      var pick := Pick(s0, Figures(p.minLoad, s0.obj[o].load), []);
      WalkFates(t, pick, o, s0.obj[o].irqs, ratio);
      var r := ConsiderAll(t, pick, o, s0.obj[o].irqs, ratio, false);
      WalkHomes(t, pick, o, s0.obj[o].irqs, ratio, false);
      WalkTurns(t, pick, o, s0.obj[o].irqs, ratio);
      ChosenNow(s, pick, r.state, o, ratio);
      FatesOf(s, pick, r, o, ratio);
    }
  }

  lemma KnownObject(t: Topo, s: State, o: ObjId)
    requires Basic(t, s) && o in t.at
    ensures o in s.obj
  {
  }

  lemma FatesOf(s: State, p: Pick, r: Pick, o: ObjId, ratio: nat)
    requires o in s.obj && (forall x :: x in s.obj[o].irqs ==> x in s.irq) && p.state == SortObj(s, o) && o in r.state.obj
    requires p.figures.adjustmentLoad == s.obj[o].load && s.obj[o].load > p.figures.minLoad && |s.obj[o].irqs| > 1
    requires Walked2(p, r, o, p.state.obj[o].irqs, ratio) && LeftWait(s, r.state, o) && Chosen(s, r.state, o, p.figures.minLoad, ratio)
    ensures Fates(s, r.state, o, p.figures.minLoad, r.figures.minLoad, ratio)
  {
    hide Left, Sort, Fate, Chosen;
    var l := s.obj[o].irqs;
    SortSame(s, l);
    LeftSort(s, r.state, o, l);
    LeftLoads(s, r.state, p.state, o, Sort(s, l));
    forall i | i in l
      ensures Fate(s, r.state, o, i, Gap(p.figures), Gap(r.figures), ratio)
    {
      assert i in p.state.obj[o].irqs;
      FateAlike(s, p.state, r.state, o, i, Gap(p.figures), Gap(r.figures), ratio);
    }
  }

  lemma ChosenNow(s: State, p: Pick, r: State, o: ObjId, ratio: nat)
    requires o in s.obj && (forall x :: x in s.obj[o].irqs ==> x in s.irq) && p.state == SortObj(s, o)
    requires p.figures.adjustmentLoad == s.obj[o].load
    requires Turns(p.state, r, o, p.state.obj[o].irqs, s.obj[o].load, p.figures.minLoad, |p.state.obj[o].irqs|, ratio)
    ensures Chosen(s, r, o, p.figures.minLoad, ratio)
  {
    hide Sort, Turn, Before;
    var l := Sort(s, s.obj[o].irqs);
    assert p.state.obj[o].irqs == l;
    assert |multiset(l)| == |multiset(s.obj[o].irqs)|;
    SortedInOrder(s, o);
    forall k: nat | k < |l|
      ensures Turn(s, r, o, l, k, s.obj[o].load, p.figures.minLoad, |s.obj[o].irqs|, ratio)
    {
      TurnKnown(p.state, r, o, l, k, s.obj[o].load, p.figures.minLoad, |l|, ratio);
      TurnSame(s, p.state, r, r, o, l, k, s.obj[o].load, p.figures.minLoad, |l|, ratio);
    }
    assert InOrder(s, o, l) && ChosenFrom(s, r, o, l, p.figures.minLoad, ratio);
  }

  lemma SortedInOrder(s: State, o: ObjId)
    requires o in s.obj && forall x :: x in s.obj[o].irqs ==> x in s.irq
    ensures InOrder(s, o, Sort(s, s.obj[o].irqs))
  {
    hide Sort;
    SortIsSorted(s, s.obj[o].irqs);
  }

  lemma TurnKnown(s: State, r: State, o: ObjId, l: seq<IrqId>, k: nat, load: int, mn: int, many: nat, ratio: nat)
    requires Turn(s, r, o, l, k, load, mn, many, ratio)
    ensures forall x :: x in l ==> x in s.irq && x in r.irq
  {
  }

  lemma SortSame(s: State, l: seq<IrqId>)
    requires forall x :: x in l ==> x in s.irq
    ensures forall x :: x in l <==> x in Sort(s, l)
  {
    hide Sort;
    Permuted(l, Sort(s, l));
  }

  lemma FateAlike(s: State, q: State, r: State, o: ObjId, i: IrqId, before: nat, after: nat, ratio: nat)
    requires q.irq == s.irq && Fate(q, r, o, i, before, after, ratio)
    ensures Fate(s, r, o, i, before, after, ratio)
  {
  }

  // ---- objects whose turn it is not

  /** Between s and r the list and load of o stay, and so do the records of interrupts that wait or are at home at o. */
  ghost predicate Spared(s: State, r: State, o: ObjId) {
    && o in s.obj && o in r.obj && r.obj[o].irqs == s.obj[o].irqs && r.obj[o].load == s.obj[o].load && r.irq.Keys == s.irq.Keys
    && (forall i :: i in s.irq && (s.irq[i].home.None? || s.irq[i].home == Some(o)) ==> r.irq[i] == s.irq[i])
  }

  lemma SparedTrans(s: State, r: State, q: State, o: ObjId)
    requires Spared(s, r, o) && Spared(r, q, o)
    ensures Spared(s, q, o)
  {
  }

  lemma SelectFromSpares(t: Topo, p: Pass, x: ObjId, ratio: nat, machine: bool, o: ObjId)
    requires Basic(t, p.state) && x in t.at && o in t.at && x != o
    ensures Spared(p.state, SelectFrom(t, p, x, ratio, machine).state, o)
  {
    hide Owned, Shaped, Kept, ConsiderAll, Sort;
    OwnedLists(p.state);
    KnownObject(t, p.state, o);
    var s := p.state;
    SelectFromThins(t, p, x, ratio, machine);
    if s.obj[x].load > p.minLoad && |s.obj[x].irqs| > 1 {
      var s0 := SortObj(s, x);
      SortObjKept(t, s, x);
      KeptMeans(t, s, s0);
      WalkOthers(t, Pick(s0, Figures(p.minLoad, s0.obj[x].load), []), x, s0.obj[x].irqs, ratio, machine, o);
    }
  }

  lemma {:induction false} PassSpares(t: Topo, p: Pass, list: seq<ObjId>, ratio: nat, machine: bool, o: ObjId)
    requires Basic(t, p.state) && (forall x :: x in list ==> x in t.at && x != o) && o in t.at
    ensures Spared(p.state, SelectAll(t, p, list, ratio, machine).state, o)
    decreases |list|
  {
    hide Basic, Kept, SelectFrom, Spared;
    if |list| == 0 {
      KnownObject(t, p.state, o);
      SparedSame(p.state, o);
    } else {
      PassSpares(t, p, list[..|list| - 1], ratio, machine, o);
      var q := SelectAll(t, p, list[..|list| - 1], ratio, machine);
      SelectFromSpares(t, q, list[|list| - 1], ratio, machine, o);
      SparedTrans(p.state, q.state, SelectFrom(t, q, list[|list| - 1], ratio, machine).state, o);
    }
  }

  lemma SparedSame(s: State, o: ObjId)
    requires o in s.obj
    ensures Spared(s, s, o)
  {
  }

  /** The fates of o are the same seen from before and after the turns of others. */
  lemma FatesFrame(s: State, q: State, r: State, z: State, o: ObjId, mn: int, mn': int, ratio: nat)
    requires Spared(s, q, o) && Fates(q, r, o, mn, mn', ratio) && Spared(r, z, o) && o in s.obj
    requires forall i :: i in s.obj[o].irqs ==> i in s.irq && s.irq[i].home == Some(o)
    ensures Fates(s, z, o, mn, mn', ratio)
  {
    hide Left, Room, Chosen;
    var l := s.obj[o].irqs;
    forall i | i in l
      ensures i in z.irq && z.irq[i].home == r.irq[i].home
    {
      assert q.irq[i] == s.irq[i];
    }
    LeftLoads(s, r, q, o, l);
    LeftSame(s, r, z, o, l);
    if Chosen(q, r, o, mn, ratio) { ChosenFrame(s, q, r, z, o, mn, ratio); }
  }

  /** What Chosen says depends on the records and the list of o alone. */
  lemma ChosenFrame(s: State, q: State, r: State, z: State, o: ObjId, mn: int, ratio: nat)
    requires Chosen(q, r, o, mn, ratio) && o in s.obj && o in q.obj && q.obj[o].irqs == s.obj[o].irqs && q.obj[o].load == s.obj[o].load
    requires forall i :: i in s.obj[o].irqs ==> i in s.irq && i in q.irq && i in r.irq && i in z.irq && q.irq[i] == s.irq[i]
    requires forall i :: i in s.obj[o].irqs ==> (z.irq[i].home == Some(o) <==> r.irq[i].home == Some(o))
    ensures Chosen(s, z, o, mn, ratio)
  {
    hide Turn;
    var l :| InOrder(q, o, l) && ChosenFrom(q, r, o, l, mn, ratio);
    forall x | x in l
      ensures x in s.obj[o].irqs
    {
      assert x in multiset(s.obj[o].irqs);
    }
    forall k: nat | k < |l|
      ensures Turn(s, z, o, l, k, s.obj[o].load, mn, |s.obj[o].irqs|, ratio)
    {
      TurnSame(s, q, r, z, o, l, k, s.obj[o].load, mn, |s.obj[o].irqs|, ratio);
    }
    assert InOrder(s, o, l) && ChosenFrom(s, z, o, l, mn, ratio);
  }

  lemma {:induction false} WalkHomes(t: Topo, p: Pick, o: ObjId, list: seq<IrqId>, ratio: nat, machine: bool)
    requires Basic(t, p.state) && AllAt(p.state, list, o) && NoDup(list)
    ensures
      var r := ConsiderAll(t, p, o, list, ratio, machine).state;
      forall i :: i in p.state.irq ==> r.irq[i].home == p.state.irq[i].home || r.irq[i].home == None
    decreases |list|
  {
    hide Basic, Kept, ForceRebalance, Accept, Linked, Select.Candidate;
    if |list| > 0 {
      var init, i := list[..|list| - 1], list[|list| - 1];
      LastApart(list);
      assert i in list;
      WalkHomes(t, p, o, init, ratio, machine);
      var q := ConsiderAll(t, p, o, init, ratio, machine);
      BasicLinked(t, q.state);
      LinkedKnows(q.state, i);
      ForceOthers(q.state, i);
      if q.state.irq[i].level != NoBalance { ForcedHome(t, q.state, i); } else { ForceNone(q.state, i); }
    }
  }

  // ---- a pass

  /** Along the list, each object has its fates, and hands the raised minimum to the next. */
  ghost predicate Trace(s: State, r: State, list: seq<ObjId>, ms: seq<int>, ratio: nat) {
    |ms| == |list| + 1 && forall k :: 0 <= k < |list| ==> Fates(s, r, list[k], ms[k], ms[k + 1], ratio)
  }

  lemma {:induction false} PassFates(t: Topo, p: Pass, list: seq<ObjId>, ratio: nat, machine: bool) returns (ms: seq<int>)
    requires Basic(t, p.state) && (forall o :: o in list ==> o in t.at) && NoDup(list) && (machine ==> AllBounded(p.state))
    ensures
      var r := SelectAll(t, p, list, ratio, machine);
      Trace(p.state, r.state, list, ms, ratio) && ms[0] == p.minLoad && ms[|list|] == r.minLoad
    decreases |list|
  {
    hide Basic, Kept, SelectFrom, Fates, Spared, AllBounded, NoDup;
    if |list| == 0 {
      ms := [p.minLoad];
    } else {
      var init, o := list[..|list| - 1], list[|list| - 1];
      LastApart(list);
      ms := PassFates(t, p, init, ratio, machine);
      var q := SelectAll(t, p, init, ratio, machine);
      var r := SelectFrom(t, q, o, ratio, machine);
      if machine { SelectAllExact(t, p, init, ratio); }
      SelectFromFates(t, q, o, ratio, machine);
      PassSpares(t, p, init, ratio, machine, o);
      FatesNow(t, p.state, q.state, r.state, o, q.minLoad, r.minLoad, ratio);
      forall k | 0 <= k < |init|
        ensures Fates(p.state, r.state, init[k], ms[k], ms[k + 1], ratio)
      {
        assert init[k] in init;
        SelectFromSpares(t, q, o, ratio, machine, init[k]);
        FatesLater(p.state, q.state, r.state, init[k], ms[k], ms[k + 1], ratio);
      }
      ms := ms + [r.minLoad];
    }
  }

  lemma FatesNow(t: Topo, s: State, q: State, r: State, o: ObjId, mn: int, mn': int, ratio: nat)
    requires Basic(t, s) && o in t.at && Spared(s, q, o) && Fates(q, r, o, mn, mn', ratio)
    ensures Fates(s, r, o, mn, mn', ratio)
  {
    hide Owned, Shaped, Fates;
    OwnedLists(s);
    FatesKnown(q, r, o, mn, mn', ratio);
    SparedSame(r, o);
    FatesFrame(s, q, r, r, o, mn, mn', ratio);
  }

  lemma FatesKnown(s: State, r: State, o: ObjId, mn: int, mn': int, ratio: nat)
    requires Fates(s, r, o, mn, mn', ratio)
    ensures o in s.obj && o in r.obj
  {
  }

  /** Turns of others afterwards change nothing about it: those that left wait, and stay waiting. */
  lemma FatesLater(s: State, r: State, z: State, o: ObjId, mn: int, mn': int, ratio: nat)
    requires Fates(s, r, o, mn, mn', ratio) && Spared(r, z, o)
    ensures Fates(s, z, o, mn, mn', ratio)
  {
    hide Left, Room, Chosen;
    LeftSame(s, r, z, o, s.obj[o].irqs);
    if Chosen(s, r, o, mn, ratio) { ChosenFrame(s, s, r, z, o, mn, ratio); }
  }

  // ---- powersaving

  /** for_each_irq(.., force_rebalance_irq): every balanced interrupt of the list waits, no other record changes. */
  lemma {:induction false} ForceAllWait(t: Topo, s: State, o: ObjId, list: seq<IrqId>)
    requires Basic(t, s) && AllAt(s, list, o) && NoDup(list)
    ensures
      var r := ForceAll(t, s, o, list);
      && r.irq.Keys == s.irq.Keys
      && (forall i :: i in s.irq ==> r.irq[i].level == s.irq[i].level && (i !in list || s.irq[i].level == NoBalance ==> r.irq[i] == s.irq[i]))
      && (forall i :: i in list && s.irq[i].level != NoBalance ==> r.irq[i].home == None)
    decreases |list|
  {
    hide Basic, Kept, ForceRebalance, NoDup;
    if |list| > 0 {
      var init, i := list[..|list| - 1], list[|list| - 1];
      LastApart(list);
      ForceAllWait(t, s, o, init);
      var q := ForceAll(t, s, o, init);
      ForceNext(t, s, q, o, list);
      if q.irq[i].level != NoBalance { ForcedHome(t, q, i); } else { ForceNone(q, i); }
    }
  }

  /**
   A CPU that enters powersaving has the flag, its balanced interrupts wait and it keeps unbalanced ones only; no other
   flag changes. Leaving clears the flag of every CPU and nothing else.
   */
  lemma PowerEffect(t: Topo, s: State, p: Power)
    requires Basic(t, s)
    ensures
      var r := PowerStep(t, s, p);
      match p
      case NoChange => r == s
      case Enter(c) => if c in t.cpus then Emptied(s, r, c) else r == s
      case LeaveAll => r == s.(obj := r.obj) && Woken(t, s, r)
  {
    hide Owned, Shaped, Kept, ForceAll, Emptied;
    TreeObjects(t, s);
    match p
    case NoChange =>
    case LeaveAll =>
    case Enter(c) =>
      if c in t.cpus {
        CpuFlagKept(t, s, {c}, true);
        var s1 := CpuFlags(s, {c}, true);
        OwnedLists(s1);
        ForceAllEmpties(t, s1, c);
        EmptiedFlag(s, ForceAll(t, s1, c, s1.obj[c].irqs), c);
      }
  }

  ghost predicate Emptied(s: State, r: State, c: ObjId) {
    && c in s.obj && r.obj.Keys == s.obj.Keys && r.irq.Keys == s.irq.Keys && r.obj[c].powersave
    && (forall o :: o in s.obj && o != c ==> r.obj[o].powersave == s.obj[o].powersave)
    && (forall i :: i in s.obj[c].irqs && i in s.irq && s.irq[i].level != NoBalance ==> r.irq[i].home == None)
    && (forall i :: i in r.obj[c].irqs ==> i in r.irq && r.irq[i].level == NoBalance)
  }

  ghost predicate Woken(t: Topo, s: State, r: State) {
    r.obj.Keys == s.obj.Keys && forall o :: o in s.obj ==> r.obj[o] == if o in t.cpus then s.obj[o].(powersave := false) else s.obj[o]
  }

  lemma ForceAllEmpties(t: Topo, s: State, c: ObjId)
    requires Basic(t, s) && c in s.obj && s.obj[c].powersave && AllAt(s, s.obj[c].irqs, c) && NoDup(s.obj[c].irqs)
    ensures Emptied(s, ForceAll(t, s, c, s.obj[c].irqs), c)
  {
    hide Owned, Shaped, Kept, ForceAll, NoDup;
    var l := s.obj[c].irqs;
    var r := ForceAll(t, s, c, l);
    ForceAllWait(t, s, c, l);
    forall o | o in s.obj
      ensures o in r.obj && r.obj[o].powersave == s.obj[o].powersave
    {
      ForceAllFlag(t, s, c, l, o);
    }
    OwnedLists(r);
    forall i | i in r.obj[c].irqs
      ensures i in r.irq && r.irq[i].level == NoBalance
    {
      if i !in l { NotAtHome(s, i, c); }
    }
  }

  lemma EmptiedFlag(s: State, r: State, c: ObjId)
    requires Emptied(CpuFlags(s, {c}, true), r, c)
    ensures Emptied(s, r, c)
  {
  }

  lemma NotAtHome(s: State, i: IrqId, o: ObjId)
    requires Owned(s) && o in s.obj && i in s.irq && i !in s.obj[o].irqs
    ensures s.irq[i].home != Some(o)
  {
    hide NoRepeat;
  }

  lemma {:induction false} ForceAllFlag(t: Topo, s: State, o: ObjId, list: seq<IrqId>, x: ObjId)
    requires Basic(t, s) && AllAt(s, list, o) && NoDup(list) && x in s.obj
    ensures x in ForceAll(t, s, o, list).obj && ForceAll(t, s, o, list).obj[x].powersave == s.obj[x].powersave
    decreases |list|
  {
    hide Basic, Kept, ForceRebalance;
    if |list| > 0 {
      ForceAllFlag(t, s, o, list[..|list| - 1], x);
      var q := ForceAll(t, s, o, list[..|list| - 1]);
      ForceNext(t, s, q, o, list);
      ForceFlag(q, list[|list| - 1], x);
    }
  }

  lemma ForceFlag(s: State, i: IrqId, o: ObjId)
    requires HomeKnown(s, i) && o in s.obj
    ensures o in ForceRebalance(s, i).obj && ForceRebalance(s, i).obj[o].powersave == s.obj[o].powersave
  {
    hide Drop;
  }

  lemma PowerSpares(t: Topo, s: State, p: Power, o: ObjId)
    requires Basic(t, s) && o in t.at && p != Enter(o)
    ensures Spared(s, PowerStep(t, s, p), o)
  {
    hide Owned, Shaped, Kept, ForceAll;
    KnownObject(t, s, o);
    PowerThins(t, s, p);
    match p
    case NoChange =>
    case LeaveAll =>
    case Enter(c) =>
      if c in t.cpus {
        CpuFlagKept(t, s, {c}, true);
        var s1 := CpuFlags(s, {c}, true);
        OwnedLists(s1);
        ForceAllOthers(t, s1, c, s1.obj[c].irqs, o);
        ForceAllWait(t, s1, c, s1.obj[c].irqs);
      }
  }

  // ---- all four passes

  lemma {:induction false} MinAlike(s: State, r: State, list: seq<ObjId>)
    requires forall o :: o in list ==> o in s.obj && o in r.obj && r.obj[o].load == s.obj[o].load
    ensures MinLoad(r, list) == MinLoad(s, list)
    decreases |list|
  {
    if |list| > 0 { MinAlike(s, r, list[..|list| - 1]); }
  }

  /** As Trace, but says nothing of the CPU that enters powersaving. */
  ghost predicate TraceBut(s: State, r: State, list: seq<ObjId>, ms: seq<int>, ratio: nat, p: Power) {
    |ms| == |list| + 1 && forall k :: 0 <= k < |list| && p != Enter(list[k]) ==> Fates(s, r, list[k], ms[k], ms[k + 1], ratio)
  }

  /** One of the passes, seen from the whole: before it and after it the objects of the list are spared. */
  lemma PassWithin(t: Topo, s: State, q: State, z: State, list: seq<ObjId>, ratio: nat, machine: bool, p: Power) returns (ms: seq<int>)
    requires Basic(t, s) && Basic(t, q) && (forall o :: o in list ==> o in t.at) && NoDup(list) && (machine ==> AllBounded(q))
    requires forall o :: o in list ==> o in s.obj && o in q.obj
    requires forall o :: o in list ==> Spared(s, q, o)
    requires forall o :: o in list && p != Enter(o) ==> Spared(FindOverloaded(t, q, list, ratio, machine), z, o)
    ensures TraceBut(s, z, list, ms, ratio, p) && ms[0] == MinLoad(s, list)
  {
    hide Basic, Kept, SelectAll, Fates, Spared, AllBounded, NoDup, MinLoad;
    ms := PassFates(t, Pass(q, MinLoad(q, list)), list, ratio, machine);
    forall o | o in list
      ensures q.obj[o].load == s.obj[o].load
    {
      SparedLoad(s, q, o);
    }
    MinAlike(s, q, list);
    var r := FindOverloaded(t, q, list, ratio, machine);
    forall k | 0 <= k < |list| && p != Enter(list[k])
      ensures Fates(s, z, list[k], ms[k], ms[k + 1], ratio)
    {
      assert list[k] in list;
      FatesNow(t, s, q, r, list[k], ms[k], ms[k + 1], ratio);
      FatesLater(s, r, z, list[k], ms[k], ms[k + 1], ratio);
    }
  }

  lemma SparedLoad(s: State, r: State, o: ObjId)
    requires Spared(s, r, o)
    ensures o in s.obj && o in r.obj && r.obj[o].load == s.obj[o].load
  {
  }

  lemma FoundSpares(t: Topo, s: State, list: seq<ObjId>, ratio: nat, machine: bool, o: ObjId)
    requires Basic(t, s) && (forall x :: x in list ==> x in t.at && x != o) && o in t.at && forall x :: x in list ==> x in s.obj
    ensures Spared(s, FindOverloaded(t, s, list, ratio, machine), o)
  {
    hide Basic, Kept, SelectAll, Spared, MinLoad;
    PassSpares(t, Pass(s, MinLoad(s, list)), list, ratio, machine, o);
  }

  lemma StillBounded(t: Topo, s: State, list: seq<ObjId>, ratio: nat)
    requires Basic(t, s) && (forall o :: o in list ==> o in t.at && o in s.obj) && AllBounded(s)
    ensures AllBounded(FindOverloaded(t, s, list, ratio, true))
  {
    hide Basic, Kept, SelectAll, AllBounded, MinLoad;
    SelectAllExact(t, Pass(s, MinLoad(s, list)), list, ratio);
  }

  /** The traces of CPUs, caches, packages and nodes, each from the smallest load of its kind. */
  ghost predicate AllTraces(t: Topo, s: State, r: State, p: Power, ratio: nat, a: seq<int>, b: seq<int>, c: seq<int>, d: seq<int>) {
    && (forall o :: o in t.nodes || o in t.packages || o in t.caches || o in t.cpus ==> o in s.obj)
    && TraceBut(s, r, t.cpus, a, ratio, p) && a[0] == MinLoad(s, t.cpus)
    && TraceBut(s, r, t.caches, b, ratio, NoChange) && b[0] == MinLoad(s, t.caches)
    && TraceBut(s, r, t.packages, c, ratio, NoChange) && c[0] == MinLoad(s, t.packages)
    && TraceBut(s, r, t.nodes, d, ratio, NoChange) && d[0] == MinLoad(s, t.nodes)
  }

  /**
   update_migration_status as a whole: CPUs, caches, packages and nodes are all gone through, each list starting from its
   own smallest load and carrying the raised minimum along, and every object gives up exactly what its fates say.
   */
  lemma MigrationFates(t: Topo, s: State, p: Power, ratio: nat, machine: bool) returns (a: seq<int>, b: seq<int>, c: seq<int>, d: seq<int>)
    requires Basic(t, s) && (machine ==> AllBounded(s))
    ensures AllTraces(t, s, UpdateMigration(t, s, p, ratio, machine), p, ratio, a, b, c, d)
  {
    hide Basic, Kept, FindOverloaded, PowerStep, MinLoad, Shaped, Spared, TraceBut, AllBounded;
    TreeObjects(t, s);
    KindsOnce(t);
    var s1 := FindOverloaded(t, s, t.cpus, ratio, machine);
    var s2 := PowerStep(t, s1, p);
    var s3 := FindOverloaded(t, s2, t.caches, ratio, machine);
    var s4 := FindOverloaded(t, s3, t.packages, ratio, machine);
    var s5 := FindOverloaded(t, s4, t.nodes, ratio, machine);
    TreeObjects(t, s2);
    TreeObjects(t, s3);
    TreeObjects(t, s4);
    if machine {
      StillBounded(t, s, t.cpus, ratio);
      PowerBounded(t, s1, p);
      StillBounded(t, s2, t.caches, ratio);
      StillBounded(t, s3, t.packages, ratio);
    }
    forall o | o in t.cpus
      ensures Spared(s, s, o) && (p != Enter(o) ==> Spared(s1, s5, o))
    {
      SparedSame(s, o);
      if p != Enter(o) {
        PowerSpares(t, s1, p, o);
        FoundSpares(t, s2, t.caches, ratio, machine, o);
        FoundSpares(t, s3, t.packages, ratio, machine, o);
        FoundSpares(t, s4, t.nodes, ratio, machine, o);
        SparedTrans(s1, s2, s3, o);
        SparedTrans(s1, s3, s4, o);
        SparedTrans(s1, s4, s5, o);
      }
    }
    forall o | o in t.caches || o in t.packages || o in t.nodes
      ensures Spared(s, s2, o)
    {
      if p != Enter(o) { PowerSpares(t, s1, p, o); } else { NotThere(t, s1, o); }
      FoundSpares(t, s, t.cpus, ratio, machine, o);
      SparedTrans(s, s1, s2, o);
    }
    forall o | o in t.caches
      ensures Spared(s3, s5, o)
    {
      FoundSpares(t, s3, t.packages, ratio, machine, o);
      FoundSpares(t, s4, t.nodes, ratio, machine, o);
      SparedTrans(s3, s4, s5, o);
    }
    forall o | o in t.packages
      ensures Spared(s, s3, o) && Spared(s4, s5, o)
    {
      FoundSpares(t, s2, t.caches, ratio, machine, o);
      SparedTrans(s, s2, s3, o);
      FoundSpares(t, s4, t.nodes, ratio, machine, o);
    }
    forall o | o in t.nodes
      ensures Spared(s, s4, o) && Spared(s5, s5, o)
    {
      FoundSpares(t, s2, t.caches, ratio, machine, o);
      FoundSpares(t, s3, t.packages, ratio, machine, o);
      SparedTrans(s, s2, s3, o);
      SparedTrans(s, s3, s4, o);
      TreeObjects(t, s5);
      SparedSame(s5, o);
    }
    a := PassWithin(t, s, s, s5, t.cpus, ratio, machine, p);
    b := PassWithin(t, s, s2, s5, t.caches, ratio, machine, NoChange);
    c := PassWithin(t, s, s3, s5, t.packages, ratio, machine, NoChange);
    d := PassWithin(t, s, s4, s5, t.nodes, ratio, machine, NoChange);
  }

  lemma KindsOnce(t: Topo)
    requires Shaped(t)
    ensures NoDup(t.cpus) && NoDup(t.caches) && NoDup(t.packages) && NoDup(t.nodes)
    ensures forall o :: o in t.cpus ==> o in t.at && o !in t.caches && o !in t.packages && o !in t.nodes
    ensures forall o :: o in t.caches ==> o in t.at && o !in t.cpus && o !in t.packages && o !in t.nodes
    ensures forall o :: o in t.packages ==> o in t.at && o !in t.cpus && o !in t.caches && o !in t.nodes
    ensures forall o :: o in t.nodes ==> o in t.at && o !in t.cpus && o !in t.caches && o !in t.packages
  {
    hide NoDup;
  }

  /** Only a CPU can enter powersaving. */
  lemma NotThere(t: Topo, s: State, o: ObjId)
    requires Basic(t, s) && o !in t.cpus && o in t.at
    ensures Spared(s, PowerStep(t, s, Enter(o)), o)
  {
    hide Owned, Shaped, Kept, ForceAll;
    KnownObject(t, s, o);
  }
}
