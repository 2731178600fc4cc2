/** Whole cycles: what the first one cannot depend on, what selection does in later ones, and how a rebuilt tree starts. */
module Rounds {
  import opened Topology
  import opened Irqs
  import opened Invariant
  import opened Placement
  import opened Stat
  import opened Select
  import opened Interrupts
  import opened Scan
  import opened Slots
  import opened Maximal
  import opened Counters

  // ---- the first cycle

  /** The two inputs differ in measured loads, powersave decision and migrate ratio at most. */
  ghost predicate SameButLoads(a: Input, b: Input) {
    b == a.(rd := a.rd.(loads := b.rd.loads), power := b.power, ratio := b.ratio)
  }

  /** A first cycle, and a cycle that rebuilds the tree, are blind to all three. */
  lemma FirstCycleBlind(d: Daemon, a: Input, b: Input, machine: bool)
    requires Safe(d) && SameButLoads(a, b) && (d.cycle == 0 || Rescans(d, a))
    ensures Cycle(d, b, machine) == Cycle(d, a, machine)
  {
    hide Safe, ReadStat, UpdateMigration, ReadInterrupts, ClearWork, ClearSlots, CalculatePlacement, Activation.ActivateAll, FreshState;
    assert FirstReading(b.rd) == FirstReading(a.rd);
  }

  /** In later cycles selection has gone over all objects, from the loads just read, before placement starts. */
  lemma CycleFates(d: Daemon, input: Input, machine: bool) returns (a: seq<int>, b: seq<int>, c: seq<int>, e: seq<int>)
    requires Safe(d) && d.cycle > 0 && !Rescans(d, input)
    ensures
      var q := ReadStat(d.t, Observe(d, input).state, input.rd);
      var r := Selected(d.t, d.cycle, Observe(d, input).state, input, machine);
      && Cycle(d, input, machine) == Daemon(d.t, Settled(d.t, r, input), d.cycle + 1, false)
      && AllTraces(d.t, q, r, input.power, input.ratio, a, b, c, e)
  {
    hide Basic, Kept, UpdateMigration, ReadStat, AllBounded, Settled, Observe, Rescan, AllTraces, Cleared, Frozen, SlotsOk, HomesReached, Unused;
    var p := Observe(d, input);
    ReadBounded(d.t, p.state, input.rd);
    var q := ReadStat(d.t, p.state, input.rd);
    KeptMeans(d.t, p.state, q);
    a, b, c, e := MigrationFates(d.t, q, input.power, input.ratio, machine);
  }

  // ---- a tree just built

  /** Nothing is placed, every reachable object is open, and exactly the balanced interrupts wait. */
  ghost predicate Unstarted(t: Topo, s: State) {
    && Shaped(t)
    && (forall i :: i in s.irq ==> s.irq[i].home == None && (i in s.rebalance <==> i in s.db && s.irq[i].level != NoBalance))
    && (forall o :: o in s.obj ==> s.obj[o].irqs == [] && !s.obj[o].powersave && s.obj[o].slots == if o in Reach(t) then 2147483647 else 0)
  }

  ghost predicate NoHomes(s: State) { forall i :: i in s.irq ==> s.irq[i].home == None }

  lemma {:induction false} ReadLinesObj(t: Topo, s: State, lines: seq<Line>)
    requires Basic(t, s)
    ensures ReadLines(t, s, lines).state.obj == s.obj
    decreases |lines|
  {
    hide Basic, Listed, ReadLine;
    if |lines| > 0 {
      ReadLinesObj(t, s, lines[..|lines| - 1]);
      ReadLineObj(t, ReadLines(t, s, lines[..|lines| - 1]).state, lines[|lines| - 1]);
    }
  }

  lemma ReadLineObj(t: Topo, s: State, l: Line)
    requires Basic(t, s)
    ensures ReadLine(t, s, l).state.obj == s.obj
  {
    hide Owned, Shaped, Listed, Hotplug;
    SomeNodes(t);
    UnknownIrq(s, l.irq);
    if l.irq !in s.irq { HotplugShape(s, l.irq, KnownInfo(t, l.info)); }
  }

  lemma {:induction false} RemoveAllObj(t: Topo, s: State, list: seq<IrqId>)
    requires Basic(t, s) && AllKnown(s, list) && NoDup(list) && NoHomes(s)
    ensures RemoveAll(t, s, list).obj == s.obj
    decreases |list|
  {
    hide Basic, Listed, RemoveIrq, NoDup, NoHomes, Swept;
    if |list| > 0 {
      LastApart(list);
      assert list[|list| - 1] in list;
      RemoveAllObj(t, s, list[..|list| - 1]);
      var q := RemoveAll(t, s, list[..|list| - 1]);
      RemoveNext(t, s, q, list);
      NoHomesStay(t, s, q);
      RemoveObj(t, q, list[|list| - 1]);
    }
  }

  lemma RemoveObj(t: Topo, s: State, i: IrqId)
    requires Basic(t, s) && NoHomes(s) && HomeKnown(s, i)
    ensures RemoveIrq(s, i).obj == s.obj
  {
    hide Basic, Drop;
  }

  lemma NoHomesStay(t: Topo, s: State, r: State)
    requires Listed(t, s, r) && NoHomes(s)
    ensures NoHomes(r)
  {
    hide Basic, Placed, Blank, Frozen;
  }

  /** Reading /proc/interrupts changes no object while nothing is placed. */
  lemma ReadingObj(t: Topo, s: State, file: File, need: bool)
    requires Basic(t, s) && NoHomes(s)
    ensures
      var r := ReadInterrupts(t, s, file, need).state;
      r.obj == s.obj && NoHomes(r) && Basic(t, r)
  {
    hide Basic, Listed, ReadLines, RemoveAll, NoHomes, AllKnown, NoDup;
    NoHomesStay(t, s, ReadInterrupts(t, s, file, need).state);
    match file
    case Unreadable =>
    case Lines(lines) =>
      ReadLinesObj(t, s, lines);
      var p := ReadLines(t, s, lines);
      NoHomesStay(t, s, p.state);
      BasicMeans(t, p.state);
      RegisteredLists(p.state);
      RemoveAllObj(t, p.state, p.state.db);
      var s1 := RemoveAll(t, p.state, p.state.db);
      NoHomesStay(t, p.state, s1);
      BasicMeans(t, s1);
      RegisteredLists(s1);
      RemoveAllObj(t, s1, s1.banned);
  }

  /** Without homes, lists are empty and the balanced interrupts of the database wait. */
  lemma NoHomesWait(s: State)
    requires Owned(s) && NoHomes(s)
    ensures forall o :: o in s.obj ==> s.obj[o].irqs == []
    ensures forall i :: i in s.irq ==> (i in s.rebalance <==> i in s.db && s.irq[i].level != NoBalance)
  {
    hide NoDup;
    OwnedLists(s);
    forall o | o in s.obj
      ensures s.obj[o].irqs == []
    {
      HeadIn(s.obj[o].irqs);
    }
    forall i | i in s.irq
      ensures i in s.rebalance <==> i in s.db && s.irq[i].level != NoBalance
    {
      assert FoundAt(s, i, None) <==> i in s.rebalance;
    }
  }

  lemma HeadIn(l: seq<IrqId>)
    ensures l == [] || l[0] in l
  {
  }

  /** The slots and flags of a state, which readings do not touch. */
  ghost predicate Open(t: Topo, s: State) {
    Shaped(t) && forall o :: o in s.obj ==> !s.obj[o].powersave && s.obj[o].slots == if o in Reach(t) then INT_MAX else 0
  }

  lemma Unstarts(t: Topo, s: State)
    requires Basic(t, s) && NoHomes(s) && Open(t, s)
    ensures Unstarted(t, s)
  {
    hide Reach, Shaped, Owned;
    NoHomesWait(s);
  }

  lemma ClearedOpen(t: Topo, s: State)
    requires Shaped(t) && Blank(s)
    ensures Open(t, ClearSlots(t, s)) && NoHomes(ClearSlots(t, s))
  {
    hide Shaped, Reach;
  }

  lemma MeasuredOpen(t: Topo, s: State, r: State)
    requires Measured(s, r)
    ensures NoHomes(s) ==> NoHomes(r)
    ensures Open(t, s) ==> Open(t, r)
  {
    hide Shaped, Reach;
  }

  lemma SameOpen(t: Topo, s: State, r: State)
    requires Open(t, s) && r.obj == s.obj
    ensures Open(t, r)
  {
    hide Shaped, Reach;
  }

  /** After start-up, before the first cycle. */
  lemma StartFresh(m: Machine, lines: File, rd: Reading)
    ensures
      var d := Start(m, lines, rd);
      d.cycle == 0 && Unstarted(d.t, d.s)
  {
    hide Basic, FreshState, ReadInterrupts, ReadStat, ClearSlots, Placed, Kept, Measured, Unstarted, Listed, Blank, Open, NoHomes;
    var t := TopoOf(m);
    var p := ReadInterrupts(t, FreshState(m, []), lines, false);
    ListedBlank(t, FreshState(m, []), p.state);
    var s := ReadStat(t, p.state, FirstReading(rd));
    StatBlank(p.state, s);
    KeptMeans(t, p.state, s);
    ClearSlotsPlaced(t, s);
    BasicMeans(t, s);
    ClearedOpen(t, s);
    Unstarts(t, ClearSlots(t, s));
  }

  lemma ListedBlank(t: Topo, s: State, r: State)
    requires Listed(t, s, r) && Blank(s)
    ensures Blank(r) && Basic(t, r)
  {
    hide Basic, Placed, Blank, Frozen;
  }

  /** After a rescan: the tree is the machine's, nothing is left of the old placement, and the writes made so far stand. */
  lemma RescanFresh(d: Daemon, input: Input, machine: bool)
    requires Safe(d) && Rescans(d, input)
    ensures
      var r := Cycle(d, input, machine);
      && r.cycle == 0 && r.t == TopoOf(input.machine) && r.s.writes == d.s.writes
      && Unstarted(r.t, r.s)
  {
    hide Safe, Basic, FreshState, ReadInterrupts, ReadStat, ClearSlots, Placed, Kept, Measured, Unstarted, Listed, Blank, Open, NoHomes, Selected, Settled, Observe, Frozen;
    var t := TopoOf(input.machine);
    var log := Observe(d, input).state.writes;
    var s := FreshState(input.machine, log);
    ClearSlotsPlaced(t, s);
    BasicMeans(t, s);
    ClearedOpen(t, s);
    var s1 := ClearSlots(t, s);
    ReadingObj(t, s1, input.again, false);
    var p := ReadInterrupts(t, s1, input.again, false);
    SameOpen(t, s1, p.state);
    var r := ReadStat(t, p.state, FirstReading(input.rd));
    MeasuredOpen(t, p.state, r);
    KeptMeans(t, p.state, r);
    Unstarts(t, r);
  }

  // ---- the database found

  /** Number k is the first among those found with its interrupt. */
  ghost predicate FirstOf(found: seq<(IrqId, NewIrq)>, k: nat) {
    k < |found| && forall j :: 0 <= j < k ==> found[j].0 != found[k].0
  }

  /** rebuild_irq_db: of several reports of one interrupt the first counts. */
  lemma {:induction false} FirstReportCounts(t: Topo, log: seq<Write>, found: seq<(IrqId, NewIrq)>, k: nat)
    requires |t.nodes| > 0 && FirstOf(found, k)
    ensures
      var r := AddAll(t, NoIrqs(t, log), found);
      found[k].0 in r.irq && FirstSeen(t, r.irq[found[k].0], found[k].1)
    decreases |found|
  {
    hide AddIrq, FirstSeen, Filling;
    var init, last := found[..|found| - 1], found[|found| - 1];
    AddAllFills(t, log, init);
    var q := AddAll(t, NoIrqs(t, log), init);
    FillingRegistered(t, q);
    if k == |init| {
      AddsRecord(t, q, last.0, last.1);
    } else {
      assert init[k] == found[k];
      FirstReportCounts(t, log, init, k);
      AddKeepsRecord(t, q, last.0, last.1, found[k].0);
    }
  }

  lemma FillingRegistered(t: Topo, s: State)
    requires Filling(t, s)
    ensures Registered(s)
  {
  }

  lemma AddsRecord(t: Topo, s: State, i: IrqId, n: NewIrq)
    requires |t.nodes| > 0 && Registered(s) && i !in s.irq
    ensures
      var r := AddIrq(s, i, KnownInfo(t, n));
      i in r.irq && FirstSeen(t, r.irq[i], n)
  {
    hide NoDup;
  }

  lemma AddKeepsRecord(t: Topo, s: State, i: IrqId, n: NewIrq, x: IrqId)
    requires |t.nodes| > 0 && Registered(s) && x in s.irq
    ensures
      var r := AddIrq(s, i, KnownInfo(t, n));
      x in r.irq && r.irq[x] == s.irq[x]
  {
    hide NoDup;
  }
}
