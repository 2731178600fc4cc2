/** Start-up, one cycle, the rebuild of the tree, and what holds over every run. */
module Scan {
  import opened Topology
  import opened Irqs
  import opened Invariant
  import opened Activate
  import opened Activation
  import opened Placement
  import opened Load
  import opened Stat
  import opened Select
  import opened CpuTree
  import opened TreeShape
  import opened Interrupts

  // ---- clearing loads and slots

  /** Is some reachable list empty? Then for_each_irq on it walks the whole database. */
  ghost predicate SomeEmpty(t: Topo, s: State)
    requires Shaped(t)
  {
    exists o :: o in Reach(t) && o in s.obj && s.obj[o].irqs == []
  }

  ghost predicate OnReached(t: Topo, s: State, i: IrqId)
    requires Shaped(t)
  {
    exists o :: o in Reach(t) && o in s.obj && i in s.obj[o].irqs
  }

  /** clear_work_stats */
  ghost function ClearWork(t: Topo, s: State): State
    requires Shaped(t)
  {
    s.(irq := map i | i in s.irq ::
      if OnReached(t, s, i) || (i in s.db && SomeEmpty(t, s)) then s.irq[i].(load := 0) else s.irq[i])
  }

  /** No interrupt with a home carries a load. */
  ghost predicate Cleared(s: State) { forall i :: i in s.irq && s.irq[i].home.Some? ==> s.irq[i].load == 0 }

  lemma ClearWorkKept(t: Topo, s: State)
    requires Basic(t, s)
    ensures
      var r := ClearWork(t, s);
      Kept(t, s, r) && Basic(t, r) && Measured(s, r) && (HomesReached(t, s) ==> Cleared(r))
  {
    hide Owned, Shaped, Kept, Reach;
    var r := ClearWork(t, s);
    MeasuredKept(t, s, r);
    KeptMeans(t, s, r);
    if HomesReached(t, s) {
      forall i | i in s.irq && s.irq[i].home.Some?
        ensures r.irq[i].load == 0
      {
        AtItsHome(s, i);
        assert OnReached(t, s, i);
      }
    }
  }

  lemma AtItsHome(s: State, i: IrqId)
    requires Owned(s) && i in s.irq && s.irq[i].home.Some?
    ensures i in s.db && s.irq[i].home.value in s.obj && i in s.obj[s.irq[i].home.value].irqs
  {
    hide NoRepeat;
  }

  /** clear_slots */
  ghost function ClearSlots(t: Topo, s: State): State
    requires Shaped(t)
  {
    s.(obj := map o | o in s.obj :: if o in Reach(t) then s.obj[o].(slots := INT_MAX) else s.obj[o])
  }

  lemma ClearSlotsPlaced(t: Topo, s: State)
    requires Basic(t, s) && Blank(s)
    ensures Basic(t, ClearSlots(t, s)) && Placed(t, ClearSlots(t, s))
  {
    hide Owned, Shaped, Reach, Kept;
    var r := ClearSlots(t, s);
    assert Quiet(s, r) by { forall i | i in s.irq ensures s.irq[i].level == NoBalance ==> !s.irq[i].moved { LevelUnmoved(s, i); } }
    QuietOwned(s, r);
  }

  // ---- a fresh database

  /** What is found when the tree is built: settings, CPUs, nodes, CPU reports and interrupts. */
  datatype Machine = Machine(
    cfg: Config, cpus: set<nat>, nodes: seq<(nat, set<nat>)>, reports: seq<Report>, irqs: seq<(IrqId, NewIrq)>)

  function TopoOf(m: Machine): Topo { ToTopo(Build(m.cfg, m.cpus, m.nodes, m.reports), m.cfg) }

  function NoIrqs(t: Topo, log: seq<Write>): State {
    State(map[], [], [], [], map o | o in t.at :: Obj(0, 0, false, [], 0), log)
  }

  /** rebuild_irq_db: add_new_irq for everything found. */
  function AddAll(t: Topo, s: State, found: seq<(IrqId, NewIrq)>): State
    requires |t.nodes| > 0
  {
    if |found| == 0 then s
    else AddIrq(AddAll(t, s, found[..|found| - 1]), found[|found| - 1].0, KnownInfo(t, found[|found| - 1].1))
  }

  /** The database while it is filled: nothing has a home and no list holds anything. */
  ghost predicate Filling(t: Topo, s: State) {
    && Registered(s) && s.rebalance == [] && Fresh(s)
    && s.obj == (map o | o in t.at :: Obj(0, 0, false, [], 0))
    && (forall i :: i in s.irq ==> s.irq[i].home == None && s.irq[i].node in t.nodes && s.irq[i].last <= s.irq[i].count)
  }

  lemma {:induction false} AddAllFills(t: Topo, log: seq<Write>, found: seq<(IrqId, NewIrq)>)
    requires |t.nodes| > 0
    ensures
      var r := AddAll(t, NoIrqs(t, log), found);
      Filling(t, r) && r.writes == log && r.irq.Keys == set k | 0 <= k < |found| :: found[k].0
    decreases |found|
  {
    hide Filling, AddIrq;
    if |found| > 0 {
      var init := found[..|found| - 1];
      AddAllFills(t, log, init);
      AddFills(t, AddAll(t, NoIrqs(t, log), init), found[|found| - 1].0, KnownInfo(t, found[|found| - 1].1));
    } else {
      NothingFills(t, log);
    }
  }

  lemma NothingFills(t: Topo, log: seq<Write>)
    ensures Filling(t, NoIrqs(t, log))
  {
  }

  lemma AddFills(t: Topo, s: State, i: IrqId, n: NewIrq)
    requires Filling(t, s) && n.node in t.nodes
    ensures
      var r := AddIrq(s, i, n);
      Filling(t, r) && r.writes == s.writes && r.irq.Keys == s.irq.Keys + {i}
  {
    hide Registered;
    AddRegistered(s, i, n);
  }

  lemma AddRegistered(s: State, i: IrqId, n: NewIrq)
    requires Registered(s)
    ensures
      var r := AddIrq(s, i, n);
      Registered(r) && r.irq.Keys == s.irq.Keys + {i}
  {
    hide NoDup;
    AppendUnknown(s.db, i);
    AppendUnknown(s.banned, i);
  }

  /** The balanced interrupts among the first n of the database, in order. */
  ghost function Balanced(s: State, n: nat): seq<IrqId>
    requires n <= |s.db| && forall i :: i in s.db ==> i in s.irq
  {
    if n == 0 then []
    else Balanced(s, n - 1) + if s.irq[s.db[n - 1]].level == NoBalance then [] else [s.db[n - 1]]
  }

  ghost predicate Homeless(s: State) { forall i :: i in s.db ==> i in s.irq && s.irq[i].home == None }

  /** for_each_irq(NULL, force_rebalance_irq) on a fresh database. */
  ghost function QueueAll(s: State, n: nat): (r: State)
    requires Homeless(s) && n <= |s.db|
    ensures r == s.(rebalance := s.rebalance + Balanced(s, n))
  {
    if n == 0 then s else ForceRebalance(QueueAll(s, n - 1), s.db[n - 1])
  }

  lemma {:induction false} BalancedHas(s: State, n: nat)
    requires n <= |s.db| && NoDup(s.db) && forall i :: i in s.db ==> i in s.irq
    ensures NoDup(Balanced(s, n))
    ensures forall x :: x in Balanced(s, n) <==> x in s.db[..n] && s.irq[x].level != NoBalance
    decreases n
  {
    if n > 0 {
      BalancedHas(s, n - 1);
      assert s.db[..n] == s.db[..n - 1] + [s.db[n - 1]];
      assert s.db[n - 1] !in s.db[..n - 1];
      AppendUnknown(Balanced(s, n - 1), s.db[n - 1]);
    }
  }

  /** build_object_tree followed by queueing every balanced interrupt. */
  ghost function FreshState(m: Machine, log: seq<Write>): (r: State)
    ensures Basic(TopoOf(m), r) && Blank(r) && r.writes == log
  {
    var t := TopoOf(m);
    BuildShaped(m.cfg, m.cpus, m.nodes, m.reports);
    SomeNodes(t);
    AddAllFills(t, log, m.irqs);
    var s := AddAll(t, NoIrqs(t, log), m.irqs);
    var r := QueueAll(s, |s.db|);
    QueuedBasic(t, s);
    r
  }

  lemma QueuedBasic(t: Topo, s: State)
    requires Shaped(t) && Filling(t, s)
    ensures Homeless(s)
    ensures
      var r := QueueAll(s, |s.db|);
      Basic(t, r) && Blank(r)
  {
    hide *;
    FillingMeans(t, s);
    var r := QueueAll(s, |s.db|);
    BalancedHas(s, |s.db|);
    assert [] + Balanced(s, |s.db|) == Balanced(s, |s.db|);
    assert s.db[..|s.db|] == s.db;
    RegisteredAlike(s, r);
    FillingFits(t, s, r);
    QueuedOwned(t, r);
    BasicIs(t, r);
  }

  lemma BasicIs(t: Topo, s: State)
    requires Fits(t, s) && Owned(s)
    ensures Basic(t, s)
  {
  }

  lemma FillingFits(t: Topo, s: State, r: State)
    requires Shaped(t) && Filling(t, s) && r == s.(rebalance := r.rebalance)
    ensures Fits(t, r) && Blank(r) && Homeless(r)
  {
    hide Shaped, NoDup;
  }

  /** Nothing placed, and exactly the balanced interrupts waiting. */
  lemma QueuedOwned(t: Topo, r: State)
    requires Registered(r) && Homeless(r) && r.obj == (map o | o in t.at :: Obj(0, 0, false, [], 0))
    requires NoDup(r.rebalance) && forall x :: x in r.rebalance <==> x in r.db && r.irq[x].level != NoBalance
    ensures Owned(r)
  {
    hide NoDup, FoundAt, NoRepeat, Registered;
    forall i, at
      ensures FoundAt(r, i, at) <==> at == None && i in r.rebalance
    {
      QueuedFoundAt(t, r, i, at);
    }
    forall at
      ensures NoRepeat(r, at)
    {
      QueuedFoundAt(t, r, 0, at);
    }
  }

  lemma QueuedFoundAt(t: Topo, r: State, i: IrqId, at: Option<ObjId>)
    requires r.obj == (map o | o in t.at :: Obj(0, 0, false, [], 0)) && NoDup(r.rebalance)
    ensures NoRepeat(r, at) && (FoundAt(r, i, at) <==> at == None && i in r.rebalance)
  {
    hide NoDup;
    NoDupNil();
  }

  lemma FillingMeans(t: Topo, s: State)
    requires Filling(t, s)
    ensures NoDup(s.db) && (forall i :: i in s.db ==> i in s.irq) && Homeless(s) && Registered(s) && s.rebalance == []
    ensures s.obj == (map o | o in t.at :: Obj(0, 0, false, [], 0))
  {
    hide NoDup;
  }

  lemma RegisteredAlike(s: State, r: State)
    requires Registered(s) && r.irq == s.irq && r.db == s.db && r.banned == s.banned
    ensures Registered(r)
  {
    hide NoDup;
  }

  // ---- the daemon

  datatype Daemon = Daemon(t: Topo, s: State, cycle: nat, rescan: bool)

  /** Everything the outside world decides in one cycle. */
  datatype Input = Input(
    hup: bool, lines: File, rd: Reading, power: Power, ratio: nat, kernel: map<IrqId, Kernel>,
    machine: Machine, again: File)

  /** In the first cycle parse_proc_stat only remembers the counters. */
  function FirstReading(rd: Reading): Reading { rd.(loads := map[]) }

  /** The part of main before the first scan. */
  ghost function Start(m: Machine, lines: File, rd: Reading): (d: Daemon)
    ensures Safe(d) && d.t == TopoOf(m) && d.s.writes == []
  {
    var t := TopoOf(m);
    var p := ReadInterrupts(t, FreshState(m, []), lines, false);
    var s := ReadStat(t, p.state, FirstReading(rd));
    StatBlank(p.state, s);
    KeptMeans(t, p.state, s);
    ClearSlotsPlaced(t, s);
    Daemon(t, ClearSlots(t, s), 0, p.bad)
  }

  lemma StatBlank(s: State, r: State)
    requires Blank(s) && Measured(s, r)
    ensures Blank(r)
  {
  }

  /** Ownership, slots and homes are in order. */
  ghost predicate Safe(d: Daemon) { Basic(d.t, d.s) && Placed(d.t, d.s) }

  /** The rescan branch of scan. */
  ghost function Rescan(log: seq<Write>, input: Input): (d: Daemon)
    ensures Safe(d) && d.t == TopoOf(input.machine) && d.s.writes == log
  {
    var t := TopoOf(input.machine);
    var s := FreshState(input.machine, log);
    ClearSlotsPlaced(t, s);
    var p := ReadInterrupts(t, ClearSlots(t, s), input.again, false);
    var r := ReadStat(t, p.state, FirstReading(input.rd));
    KeptSafe(t, p.state, r);
    Daemon(t, r, 0, p.bad)
  }

  lemma KeptSafe(t: Topo, s: State, r: State)
    requires Kept(t, s, r)
    ensures Basic(t, r) && (Placed(t, s) ==> Placed(t, r)) && r.irq.Keys == s.irq.Keys && Frozen(s, r)
  {
  }

  /** The first half of a cycle: loads cleared, interrupts read. */
  ghost function Observe(d: Daemon, input: Input): (p: Parsed)
    requires Safe(d)
    ensures Safe(d.(s := p.state)) && Frozen(d.s, p.state) && p.state.writes == d.s.writes && Cleared(p.state)
  {
    ClearWorkKept(d.t, d.s);
    var s := ClearWork(d.t, d.s);
    KeptSafe(d.t, d.s, s);
    var p := ReadInterrupts(d.t, s, input.lines, d.rescan || (input.hup && d.cycle > 0));
    FrozenTrans(d.s, s, p.state);
    p
  }

  ghost predicate Rescans(d: Daemon, input: Input)
    requires Safe(d)
  {
    Observe(d, input).bad
  }

  /** Reading the loads, then selection unless this is the first cycle. */
  ghost function Selected(t: Topo, cycle: nat, s: State, input: Input, machine: bool): (r: State)
    requires Basic(t, s)
    ensures Kept(t, s, r) && Basic(t, r)
  {
    var q := ReadStat(t, s, if cycle == 0 then FirstReading(input.rd) else input.rd);
    KeptMeans(t, s, q);
    if cycle == 0 then q
    else
      var r := UpdateMigration(t, q, input.power, input.ratio, machine);
      KeptTrans(t, s, q, r);
      r
  }

  /** The second half of a cycle: placement and activation. */
  ghost function Settled(t: Topo, s: State, input: Input): (r: State)
    requires Basic(t, s)
    ensures Kept(t, s, r) && Basic(t, r)
  {
    var q := CalculatePlacement(t, s);
    KeptMeans(t, s, q);
    OwnedLinked(q);
    ActivateAllKept(t, q, |q.db|, input.kernel);
    var r := ActivateAll(t, q, |q.db|, input.kernel);
    KeptMeans(t, q, r);
    KeptTrans(t, s, q, r);
    r
  }

  /** scan. With `machine`, subtractions wrap as uint64_t; without, they are exact. */
  ghost function Cycle(d: Daemon, input: Input, machine: bool): (r: Daemon)
    requires Safe(d)
    ensures Safe(r)
    ensures !Rescans(d, input) ==> r.t == d.t && Frozen(d.s, r.s)
  {
    var p := Observe(d, input);
    if p.bad then Rescan(p.state.writes, input)
    else
      var s1 := Selected(d.t, d.cycle, p.state, input, machine);
      var s2 := Settled(d.t, s1, input);
      KeptTrans(d.t, p.state, s1, s2);
      KeptSafe(d.t, p.state, s2);
      FrozenTrans(d.s, p.state, s2);
      Daemon(d.t, s2, d.cycle + 1, false)
  }

  // ---- runs

  ghost function Run(d: Daemon, inputs: seq<Input>, machine: bool): (r: Daemon)
    requires Safe(d)
    ensures Safe(r)
  {
    if |inputs| == 0 then d else Cycle(Run(d, inputs[..|inputs| - 1], machine), inputs[|inputs| - 1], machine)
  }

  /** validate_object_tree_placement: the complaints about the interrupts of one object. */
  ghost function Complaints(s: State, o: ObjId): set<IrqId>
    requires o in s.obj && forall i :: i in s.obj[o].irqs ==> i in s.irq
  {
    set i | i in s.obj[o].irqs && s.irq[i].home != Some(o)
  }

  /** With ownership the validator has nothing to say about any object. */
  lemma ValidatorSilent(s: State, o: ObjId)
    requires Owned(s) && o in s.obj
    ensures forall i :: i in s.obj[o].irqs ==> i in s.irq
    ensures Complaints(s, o) == {}
  {
    hide NoRepeat, NoDup;
    forall i | i in s.obj[o].irqs
      ensures i in s.irq && s.irq[i].home == Some(o)
    {
      assert FoundAt(s, i, Some(o));
    }
  }

  /**
   In every run, whatever the kernel answers and whatever is read, plugged or removed: a balanced
   interrupt of the database is on exactly one list, once, the one its home names; an unregistered
   one is on no list; and the validator is silent.
   */
  lemma RunOwnership(m: Machine, lines: File, rd: Reading, inputs: seq<Input>, machine: bool, i: IrqId, at: Option<ObjId>)
    ensures
      var s := Run(Start(m, lines, rd), inputs, machine).s;
      && NoRepeat(s, at)
      && (i in s.db && i in s.irq && s.irq[i].level != NoBalance ==> (FoundAt(s, i, at) <==> s.irq[i].home == at))
      && (i !in s.irq ==> !FoundAt(s, i, at))
      && (forall o :: o in s.obj ==> (forall x :: x in s.obj[o].irqs ==> x in s.irq) && Complaints(s, o) == {})
  {
    hide Owned, NoRepeat, FoundAt, Placed, Fits, Start, Run, Complaints;
    var s := Run(Start(m, lines, rd), inputs, machine).s;
    ExactlyOneList(s, i, at);
    RegisteredLists(s);
    forall o | o in s.obj
      ensures (forall x :: x in s.obj[o].irqs ==> x in s.irq) && Complaints(s, o) == {}
    {
      ValidatorSilent(s, o);
    }
  }

  /**
   In every run every reachable object other than a CPU has slots_left = INT_MAX, every reachable
   CPU has 0 <= slots_left <= INT_MAX, and no interrupt is at home outside the reachable tree.
   */
  lemma RunSlots(m: Machine, lines: File, rd: Reading, inputs: seq<Input>, machine: bool)
    ensures
      var d := Run(Start(m, lines, rd), inputs, machine);
      && Shaped(d.t) && d.s.obj.Keys == d.t.at.Keys
      && (forall o :: o in Reach(d.t) ==> o in d.t.at && SlotOk(d.t.at[o].kind, d.s.obj[o]))
      && (forall i :: i in d.s.irq && d.s.irq[i].home.Some? ==> d.s.irq[i].home.value in Reach(d.t))
  {
    hide Owned, Start, Run, Shaped, Reach;
    var d := Run(Start(m, lines, rd), inputs, machine);
    forall o | o in Reach(d.t)
      ensures o in d.t.at
    {
      ReachInTree(d.t, o);
    }
  }

  /** Interrupt i is registered and the tree is not rebuilt, all along the inputs. */
  ghost predicate Undisturbed(d: Daemon, inputs: seq<Input>, machine: bool, i: IrqId)
    requires Safe(d)
  {
    && i in d.s.irq
    && (|inputs| > 0 ==>
          var init, last := inputs[..|inputs| - 1], inputs[|inputs| - 1];
          && Undisturbed(d, init, machine, i)
          && !Rescans(Run(d, init, machine), last)
          && i in Run(d, inputs, machine).s.irq)
  }

  /**
   An interrupt that is banned or unbalanced keeps its place over any number of cycles and is never
   written, for as long as it is registered and the tree is not rebuilt.
   */
  lemma {:induction false} RunFrozen(d: Daemon, inputs: seq<Input>, machine: bool, i: IrqId)
    requires Safe(d) && Undisturbed(d, inputs, machine, i) && d.s.irq[i].level == NoBalance
    ensures
      var r := Run(d, inputs, machine);
      && r.t == d.t && i in r.s.irq
      && r.s.irq[i].level == NoBalance && r.s.irq[i].home == d.s.irq[i].home
      && d.s.writes <= r.s.writes
      && (forall k :: |d.s.writes| <= k < |r.s.writes| ==> r.s.writes[k].irq != i)
    decreases |inputs|
  {
    hide Safe, Cycle, Rescans;
    if |inputs| > 0 {
      var init := inputs[..|inputs| - 1];
      RunFrozen(d, init, machine, i);
      var q, r := Run(d, init, machine), Run(d, inputs, machine);
      assert Frozen(q.s, r.s);
      forall k | |d.s.writes| <= k < |r.s.writes|
        ensures r.s.writes[k].irq != i
      {
        if k < |q.s.writes| { assert r.s.writes[k] == q.s.writes[k]; }
      }
    }
  }

  // ---- selection never wraps

  lemma {:induction false} NoLoadNoSum(s: State, l: seq<IrqId>)
    requires forall i :: i in l ==> i in s.irq && s.irq[i].load == 0
    ensures BigSum(s, l) == 0
  {
    if |l| > 0 { NoLoadNoSum(s, l[1..]); }
  }

  lemma ClearedBounded(t: Topo, s: State)
    requires Basic(t, s) && Cleared(s)
    ensures AllBounded(s)
  {
    hide Shaped, BigSum, NoDup;
    OwnedLists(s);
    forall o | o in s.obj
      ensures Bounded(s, o)
    {
      NoLoadNoSum(s, s.obj[o].irqs);
    }
  }

  lemma ReadBounded(t: Topo, s: State, rd: Reading)
    requires Basic(t, s) && HomesReached(t, s) && Cleared(s)
    ensures AllBounded(ReadStat(t, s, rd))
  {
    hide Owned, Shaped, Kept, Reach, ReadStat, Bounded;
    var r := ReadStat(t, s, rd);
    KeptMeans(t, s, r);
    if rd.complete {
      forall o | o in r.obj
        ensures Bounded(r, o)
      {
        ReadStatBounds(t, s, rd, o);
      }
    } else {
      IncompleteKeeps(t, s, rd);
      ClearedBounded(t, r);
    }
  }

  lemma IncompleteKeeps(t: Topo, s: State, rd: Reading)
    requires Basic(t, s) && !rd.complete
    ensures ReadStat(t, s, rd).irq == s.irq
  {
    hide Owned, Shaped, Kept;
  }

  /** One cycle takes the decisions of exact arithmetic. */
  lemma CycleExact(d: Daemon, input: Input)
    requires Safe(d)
    ensures Cycle(d, input, true) == Cycle(d, input, false)
  {
    hide Basic, Kept, UpdateMigration, ReadStat, AllBounded, Reach, Settled, Observe, Rescan;
    var p := Observe(d, input);
    var rd := if d.cycle == 0 then FirstReading(input.rd) else input.rd;
    ReadBounded(d.t, p.state, rd);
    var q := ReadStat(d.t, p.state, rd);
    KeptMeans(d.t, p.state, q);
    SelectionNeverWraps(d.t, q, input.power, input.ratio);
  }

  /** In every run adjustment_load - info->load never wraps below zero: the daemon behaves as with exact subtraction. */
  lemma {:induction false} RunNeverWraps(d: Daemon, inputs: seq<Input>)
    requires Safe(d)
    ensures Run(d, inputs, true) == Run(d, inputs, false)
    decreases |inputs|
  {
    hide Safe, Cycle;
    if |inputs| > 0 {
      var init := inputs[..|inputs| - 1];
      RunNeverWraps(d, init);
      CycleExact(Run(d, init, true), inputs[|inputs| - 1]);
    }
  }
}
