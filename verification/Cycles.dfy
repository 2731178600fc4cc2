/** What single steps promise, composed over a whole cycle and over whole runs. */
module Cycles {
  import opened Topology
  import opened Irqs
  import opened Invariant
  import opened Placement
  import opened Balance
  import opened Levels
  import opened Load
  import opened Stat
  import opened Select
  import opened Thinning
  import opened Activate
  import opened Activation
  import opened Effects
  import opened CpuTree
  import opened TreeShape
  import opened BuiltLevels
  import opened Interrupts
  import opened Scan

  // ---- the registered interrupts are those of the last reading

  /** Unless a rescan is due, no mark is left over for the next reading. */
  ghost predicate Ready(d: Daemon) { !d.rescan ==> Fresh(d.s) }

  lemma KeptFresh(t: Topo, s: State, r: State)
    requires Kept(t, s, r) && Fresh(s)
    ensures Fresh(r)
  {
    hide Basic, Placed, Frozen;
  }

  lemma NewIsFresh(m: Machine, log: seq<Write>)
    ensures Fresh(FreshState(m, log))
  {
    hide Basic, Build, ToTopo, QueueAll;
    var t := TopoOf(m);
    BuildShaped(m.cfg, m.cpus, m.nodes, m.reports);
    SomeNodes(t);
    AddAllFills(t, log, m.irqs);
  }

  lemma ReadReady(t: Topo, s: State, file: File)
    requires Basic(t, s) && Fresh(s)
    ensures var p := ReadInterrupts(t, s, file, false); p.bad || Fresh(p.state)
  {
    hide Basic, ReadInterrupts;
    if !ReadInterrupts(t, s, file, false).bad { ReadInterruptsExact(t, s, file, false); }
  }

  lemma StatFresh(t: Topo, s: State, rd: Reading)
    requires Basic(t, s) && Fresh(s)
    ensures Fresh(ReadStat(t, s, rd))
  {
    hide Basic, ReadStat;
    KeptFresh(t, s, ReadStat(t, s, rd));
  }

  lemma StartReady(m: Machine, lines: File, rd: Reading)
    ensures Ready(Start(m, lines, rd))
  {
    hide Owned, Fits, FreshState, ReadInterrupts, ReadStat, TopoOf, Listed, Kept, Placed, Blank;
    var t := TopoOf(m);
    NewIsFresh(m, []);
    var p := ReadInterrupts(t, FreshState(m, []), lines, false);
    ReadReady(t, FreshState(m, []), lines);
    if !p.bad { StatFresh(t, p.state, FirstReading(rd)); }
  }

  lemma RescanReady(log: seq<Write>, input: Input)
    ensures Ready(Rescan(log, input))
  {
    hide Owned, Shaped, FreshState, ReadInterrupts, ReadStat, TopoOf, Listed, Kept, Placed, Blank;
    var t, s := TopoOf(input.machine), FreshState(input.machine, log);
    NewIsFresh(input.machine, log);
    ClearSlotsPlaced(t, s);
    var p := ReadInterrupts(t, ClearSlots(t, s), input.again, false);
    ReadReady(t, ClearSlots(t, s), input.again);
    if !p.bad { StatFresh(t, p.state, FirstReading(input.rd)); }
  }

  /** The first half of a cycle, when it does not lead to a rescan. */
  lemma ObserveReady(d: Daemon, input: Input)
    requires Safe(d) && Ready(d) && !Rescans(d, input)
    ensures
      var p := Observe(d, input);
      Fresh(p.state) && (input.lines.Lines? ==> p.state.irq.Keys == Numbers(input.lines.lines))
  {
    hide Owned, Shaped, Placed, ClearWork, ReadInterrupts, Kept, Frozen, Cleared, Listed, Numbers;
    ClearWorkKept(d.t, d.s);
    var s, need := ClearWork(d.t, d.s), d.rescan || (input.hup && d.cycle > 0);
    NeedStays(d.t, s, input.lines, need);
    KeptFresh(d.t, d.s, s);
    ReadInterruptsExact(d.t, s, input.lines, need);
  }

  lemma NeedStays(t: Topo, s: State, file: File, need: bool)
    requires Basic(t, s)
    ensures need ==> ReadInterrupts(t, s, file, need).bad
  {
    hide Basic, ReadLines, ClearGone, Listed;
  }

  /**
   Every cycle starts with no mark left over, so after every cycle that reads /proc/interrupts without
   a rescan the registered interrupts are exactly the lines read.
   */
  lemma CycleReady(d: Daemon, input: Input, machine: bool)
    requires Safe(d) && Ready(d)
    ensures Ready(Cycle(d, input, machine))
    ensures !Rescans(d, input) && input.lines.Lines? ==> Cycle(d, input, machine).s.irq.Keys == Numbers(input.lines.lines)
  {
    hide Basic, Placed, Observe, Selected, Settled, Rescan, Kept, Frozen, Fresh, Numbers;
    var p := Observe(d, input);
    if p.bad {
      RescanReady(p.state.writes, input);
    } else {
      ObserveReady(d, input);
      var s1 := Selected(d.t, d.cycle, p.state, input, machine);
      var s2 := Settled(d.t, s1, input);
      KeptTrans(d.t, p.state, s1, s2);
      KeptFresh(d.t, p.state, s2);
      KeptMeans(d.t, p.state, s2);
    }
  }

  lemma {:induction false} RunReady(m: Machine, lines: File, rd: Reading, inputs: seq<Input>, machine: bool)
    ensures Ready(Run(Start(m, lines, rd), inputs, machine))
    decreases |inputs|
  {
    hide Safe, Start, Cycle, Ready;
    if |inputs| == 0 {
      StartReady(m, lines, rd);
    } else {
      var init := inputs[..|inputs| - 1];
      RunReady(m, lines, rd, init, machine);
      CycleReady(Run(Start(m, lines, rd), init, machine), inputs[|inputs| - 1], machine);
    }
  }

  // ---- every tree of a run is layered

  lemma {:induction false} RunLayered(m: Machine, lines: File, rd: Reading, inputs: seq<Input>, machine: bool)
    ensures Layered(Run(Start(m, lines, rd), inputs, machine).t)
    decreases |inputs|
  {
    hide Safe, Start, Layered, Observe, Rescan, Selected, Settled, Build, ToTopo;
    if |inputs| == 0 {
      BuildLayered(m.cfg, m.cpus, m.nodes, m.reports);
    } else {
      var init, input := inputs[..|inputs| - 1], inputs[|inputs| - 1];
      RunLayered(m, lines, rd, init, machine);
      BuildLayered(input.machine.cfg, input.machine.cpus, input.machine.nodes, input.machine.reports);
      CycleTree(Run(Start(m, lines, rd), init, machine), input, machine);
    }
  }

  lemma CycleTree(d: Daemon, input: Input, machine: bool)
    requires Safe(d)
    ensures Cycle(d, input, machine).t == d.t || Cycle(d, input, machine).t == TopoOf(input.machine)
  {
    hide Safe, Observe, Rescan, Selected, Settled, TopoOf;
  }

  // ---- conservation of load over a cycle

  /** No interrupt with a home has the moved flag: everything placed has been activated. */
  ghost predicate Still(s: State) { forall i :: i in s.irq && s.irq[i].home.Some? ==> !s.irq[i].moved }

  /** After a complete reading every reachable object with children carries their sum. */
  lemma ReadingSums(t: Topo, s: State, rd: Reading, o: ObjId)
    requires Basic(t, s) && rd.complete && o in Reach(t) && o in t.at && t.at[o].children != []
    ensures
      var r := ReadStat(t, s, rd);
      (forall c :: c in t.at[o].children ==> c in r.obj) && r.obj[o].load == SumLoads(r, t.at[o].children)
  {
    hide Owned, Shaped, Kept, Reach, ReadCpus, SetLoads, SumLoads, AttributeAll, DiffSum;
    var s1 := ReadCpus(t, s, rd);
    ReadCpusMeasured(t, s, rd);
    var s2 := SetLoads(t, s1);
    SetLoadsMeasured(t, s1);
    SetLoadsBalanced(t, s1, o);
    var s3 := SetCounts(t, s2);
    SetCountsMeasured(t, s2);
    ObjectsListed(t);
    SameSums(s2, AttributeAll(t, s3, AllObjects(t)), t.at[o].children);
  }

  /** The state that placement starts from: the sums still hold, and nothing placed has just moved. */
  lemma SelectedBalanced(t: Topo, cycle: nat, s: State, input: Input, machine: bool, o: ObjId)
    requires Basic(t, s) && Still(s) && input.rd.complete && o in Reach(t) && o in t.at && t.at[o].children != []
    ensures
      var r := Selected(t, cycle, s, input, machine);
      Still(r) && (forall c :: c in t.at[o].children ==> c in r.obj) && r.obj[o].load == SumLoads(r, t.at[o].children)
  {
    hide Owned, Shaped, Kept, Reach, ReadStat, UpdateMigration, SumLoads;
    var rd := if cycle == 0 then FirstReading(input.rd) else input.rd;
    var q := ReadStat(t, s, rd);
    KeptMeans(t, s, q);
    ReadingSums(t, s, rd, o);
    if cycle > 0 {
      MigrationThins(t, q, input.power, input.ratio, machine);
      SameSums(q, UpdateMigration(t, q, input.power, input.ratio, machine), t.at[o].children);
    }
  }

  lemma ObserveStill(d: Daemon, input: Input)
    requires Safe(d) && Still(d.s)
    ensures Still(Observe(d, input).state)
  {
    hide Owned, Shaped, Placed, ClearWork, ReadInterrupts, Kept, Frozen, Cleared;
    ClearWorkKept(d.t, d.s);
    var s := ClearWork(d.t, d.s);
    var p := ReadInterrupts(d.t, s, input.lines, d.rescan || (input.hup && d.cycle > 0));
    assert Listed(d.t, s, p.state);
  }

  /**
   Placement inside a cycle: if nothing placed was left half-activated and the load reading is complete,
   every object with children of its own ends with their loads plus load + 1 for each arrival that stayed.
   */
  lemma CycleConserves(d: Daemon, input: Input, machine: bool, o: ObjId)
    requires Safe(d) && Still(d.s) && !Rescans(d, input) && input.rd.complete
    requires OwnKids(d.t, o) && d.t.at[o].children != []
    ensures
      var s := Selected(d.t, d.cycle, Observe(d, input).state, input, machine);
      var r := CalculatePlacement(d.t, s);
      && Known(d.t, r, o) && r.obj[o].load == SumLoads(r, d.t.at[o].children) + Brought(r, r.obj[o].irqs)
  {
    hide Owned, Shaped, Kept, Reach, Observe, Selected, CalculatePlacement, SumLoads, Brought, NoDup, Frozen, Placed;
    ObserveStill(d, input);
    var p := Observe(d, input);
    SelectedBalanced(d.t, d.cycle, p.state, input, machine, o);
    var s := Selected(d.t, d.cycle, p.state, input, machine);
    KeptPlaced(d.t, p.state, s);
    BasicKnown(d.t, s, o);
    OwnedLists(s);
    PlacementConservesLoad(d.t, s, o);
  }

  // ---- when everything placed has been activated

  /** No affinity write of the database is answered with a transient error. */
  ghost predicate NoTransient(ks: map<IrqId, Kernel>) { forall i :: AnswersFor(ks, i).first != Transient }

  lemma Answered(ks: map<IrqId, Kernel>, i: IrqId)
    requires NoTransient(ks)
    ensures AnswersFor(ks, i).first != Transient
  {
  }

  /** An interrupt whose turn has come is not left half-activated. */
  lemma TurnedStill(s: State, r: State, i: IrqId, k: Kernel)
    requires Turned(s, r, i, k) && k.first != Transient && r.irq[i].home.Some?
    ensures !r.irq[i].moved
  {
  }

  /** A cycle without transient errors leaves nothing half-activated, so the next one can rely on it. */
  lemma CycleStill(d: Daemon, input: Input, machine: bool)
    requires Safe(d) && NoTransient(input.kernel)
    ensures Still(Cycle(d, input, machine).s)
  {
    hide Owned, Shaped, Kept, Observe, Selected, Rescan, CalculatePlacement, ActivateAll, Placed, Frozen, NoTransient, Turned;
    var p := Observe(d, input);
    if p.bad {
      RescanStill(p.state.writes, input);
    } else {
      var s1 := Selected(d.t, d.cycle, p.state, input, machine);
      var q := CalculatePlacement(d.t, s1);
      KeptMeans(d.t, s1, q);
      OwnedLinked(q);
      ActivateAllKept(d.t, q, |q.db|, input.kernel);
      var r := ActivateAll(d.t, q, |q.db|, input.kernel);
      KeptMeans(d.t, q, r);
      HomedInDb(r);
      forall i | i in r.irq && r.irq[i].home.Some?
        ensures !r.irq[i].moved
      {
        ActivationWrites(d.t, q, input.kernel, i);
        Answered(input.kernel, i);
        TurnedStill(q, r, i, AnswersFor(input.kernel, i));
      }
    }
  }

  lemma HomedInDb(s: State)
    requires Owned(s)
    ensures forall i :: i in s.irq && s.irq[i].home.Some? ==> i in s.db
  {
    hide FoundAt, NoRepeat;
  }

  lemma RescanStill(log: seq<Write>, input: Input)
    ensures Still(Rescan(log, input).s)
  {
    hide Owned, Shaped, FreshState, ReadInterrupts, ReadStat, TopoOf, Kept, Placed, Reach;
    var t, s := TopoOf(input.machine), FreshState(input.machine, log);
    ClearSlotsPlaced(t, s);
    var p := ReadInterrupts(t, ClearSlots(t, s), input.again, false);
    assert Listed(t, ClearSlots(t, s), p.state);
    assert Measured(p.state, ReadStat(t, p.state, FirstReading(input.rd)));
  }

  lemma StartStill(m: Machine, lines: File, rd: Reading)
    ensures Still(Start(m, lines, rd).s)
  {
    hide Owned, Shaped, FreshState, ReadInterrupts, ReadStat, TopoOf, Kept, Placed, Reach;
    var t := TopoOf(m);
    var p := ReadInterrupts(t, FreshState(m, []), lines, false);
    assert Listed(t, FreshState(m, []), p.state);
    assert Measured(p.state, ReadStat(t, p.state, FirstReading(rd)));
  }

  /** So in every run without transient errors each cycle starts still, and CycleConserves applies to it. */
  lemma {:induction false} RunStill(m: Machine, lines: File, rd: Reading, inputs: seq<Input>, machine: bool)
    requires forall k :: 0 <= k < |inputs| ==> NoTransient(inputs[k].kernel)
    ensures Still(Run(Start(m, lines, rd), inputs, machine).s)
    decreases |inputs|
  {
    hide Safe, Start, Cycle, Still, NoTransient;
    if |inputs| == 0 {
      StartStill(m, lines, rd);
    } else {
      var init := inputs[..|inputs| - 1];
      CycleStill(Run(Start(m, lines, rd), init, machine), inputs[|inputs| - 1], machine);
    }
  }
}
