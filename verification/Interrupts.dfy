/**
 parse_proc_interrupts with hot-plug and removal, clear_work_stats, clear_slots and the rebuild of the
 interrupt database: the steps that change which interrupts exist.
 */
module Interrupts {
  import opened Topology
  import opened Irqs
  import opened Invariant

  // ---- what these steps keep

  /** Interrupts with a home were there before, at the same home and with the same load. */
  ghost predicate Homed(s: State, r: State) {
    forall i :: i in r.irq && r.irq[i].home.Some? ==>
      i in s.irq && s.irq[i].home == r.irq[i].home && s.irq[i].load == r.irq[i].load && s.irq[i].moved == r.irq[i].moved
  }

  /** Nothing is placed yet, no slot is free and no CPU saves power. */
  ghost predicate Blank(s: State) {
    && (forall o :: o in s.obj ==> s.obj[o].slots == 0 && !s.obj[o].powersave)
    && (forall i :: i in s.irq ==> s.irq[i].home == None)
  }

  /** A step that may add or remove interrupts, but moves none and writes none. */
  ghost predicate Listed(t: Topo, s: State, r: State) {
    && Basic(t, r) && Frozen(s, r) && r.writes == s.writes && Homed(s, r)
    && (Placed(t, s) ==> Placed(t, r)) && (Blank(s) ==> Blank(r))
  }

  lemma ListedTrans(t: Topo, s: State, r: State, q: State)
    requires Listed(t, s, r) && Listed(t, r, q) && (q.irq.Keys <= r.irq.Keys || s.irq.Keys <= r.irq.Keys)
    ensures Listed(t, s, q)
  {
    hide Basic, Placed, Blank, Frozen;
    FrozenTrans(s, r, q);
  }

  lemma ListedMeans(t: Topo, s: State, r: State)
    requires Listed(t, s, r)
    ensures Basic(t, r)
  {
  }

  lemma ListedRefl(t: Topo, s: State)
    requires Basic(t, s)
    ensures Listed(t, s, s)
  {
    hide Basic, Placed, Blank;
  }

  // ---- one line

  /** One line of /proc/interrupts, with what would be found out about an interrupt not seen before. */
  datatype Line = Line(irq: IrqId, count: nat, cpusOk: bool, info: NewIrq)

  /** The unknown node of add_one_irq_to_db becomes the unspecified one. */
  function KnownInfo(t: Topo, n: NewIrq): NewIrq
    requires |t.nodes| > 0
  {
    if n.node in t.nodes then n else n.(node := t.nodes[0])
  }

  datatype Parsed = Parsed(state: State, bad: bool)

  lemma HotplugListed(t: Topo, s: State, i: IrqId, n: NewIrq)
    requires Basic(t, s) && i !in s.db && i !in s.banned && n.node in t.nodes
    ensures Listed(t, s, Hotplug(s, i, n)) && Hotplug(s, i, n).irq.Keys == s.irq.Keys + {i}
  {
    hide Owned, Shaped, Reach, Hotplug, SlotOk;
    HotplugOwned(s, i, n);
    HotplugShape(s, i, n);
    UnknownIrq(s, i);
  }

  lemma UnknownIrq(s: State, i: IrqId)
    requires Owned(s)
    ensures i in s.irq <==> i in s.db || i in s.banned
  {
    hide FoundAt, NoRepeat;
  }

  /** Counters and the existing flag of one interrupt. */
  lemma CountListed(t: Topo, s: State, i: IrqId, q: Irq)
    requires Basic(t, s) && i in s.irq && q.last <= q.count
    requires q == s.irq[i].(existing := q.existing, count := q.count, last := q.last)
    ensures Listed(t, s, WithIrq(s, i, q)) && WithIrq(s, i, q).irq.Keys == s.irq.Keys
  {
    hide Owned, Shaped, Placed;
    LevelUnmoved(s, i);
    IrqSafe(t, s, i, q);
  }

  lemma LevelUnmoved(s: State, i: IrqId)
    requires Owned(s) && i in s.irq
    ensures s.irq[i].level == NoBalance ==> !s.irq[i].moved
  {
    hide FoundAt, NoRepeat;
  }

  lemma SomeNodes(t: Topo)
    requires Shaped(t)
    ensures |t.nodes| > 0
  {
  }

  /** The state after the hot-plug, if the interrupt is new. */
  ghost function Plugged(t: Topo, s: State, l: Line): State
    requires |t.nodes| > 0
  {
    if l.irq in s.db || l.irq in s.banned then s else Hotplug(s, l.irq, KnownInfo(t, l.info))
  }

  lemma PluggedListed(t: Topo, s: State, l: Line)
    requires Basic(t, s)
    ensures |t.nodes| > 0
    ensures
      var r := Plugged(t, s, l);
      Listed(t, s, r) && Basic(t, r) && r.irq.Keys == s.irq.Keys + {l.irq}
  {
    hide Listed, Owned, Shaped, Hotplug;
    SomeNodes(t);
    UnknownIrq(s, l.irq);
    ListedRefl(t, s);
    if l.irq !in s.irq { HotplugListed(t, s, l.irq, KnownInfo(t, l.info)); }
    ListedMeans(t, s, Plugged(t, s, l));
  }

  /** The interrupt a line is about, after a hot-plug if it is new, marked as seen. */
  ghost function SeeIrq(t: Topo, s: State, l: Line): (r: State)
    requires Basic(t, s)
    ensures Listed(t, s, r) && Basic(t, r) && r.irq.Keys == s.irq.Keys + {l.irq} && r.irq[l.irq].existing
  {
    PluggedListed(t, s, l);
    var s1 := Plugged(t, s, l);
    SeenListed(t, s, s1, l.irq, s1.irq[l.irq].(existing := true));
    WithIrq(s1, l.irq, s1.irq[l.irq].(existing := true))
  }

  /** A change of counters after an earlier step. */
  lemma SeenListed(t: Topo, s: State, s1: State, i: IrqId, q: Irq)
    requires Listed(t, s, s1) && i in s1.irq && s.irq.Keys <= s1.irq.Keys && q.last <= q.count
    requires q == s1.irq[i].(existing := q.existing, count := q.count, last := q.last)
    ensures
      var r := WithIrq(s1, i, q);
      Listed(t, s, r) && Basic(t, r) && r.irq.Keys == s1.irq.Keys
  {
    hide Listed, Basic;
    ListedMeans(t, s, s1);
    CountListed(t, s1, i, q);
    ListedMeans(t, s1, WithIrq(s1, i, q));
    ListedTrans(t, s, s1, WithIrq(s1, i, q));
  }

  /** One pass of the loop of parse_proc_interrupts. */
  ghost function ReadLine(t: Topo, s: State, l: Line): (r: Parsed)
    requires Basic(t, s)
    ensures Listed(t, s, r.state) && Basic(t, r.state) && r.state.irq.Keys == s.irq.Keys + {l.irq}
  {
    var s1 := SeeIrq(t, s, l);
    var q := s1.irq[l.irq];
    if !l.cpusOk || l.count < q.count then Parsed(s1, true)
    else
      SeenListed(t, s, s1, l.irq, q.(last := q.count, count := l.count));
      Parsed(WithIrq(s1, l.irq, q.(last := q.count, count := l.count)), false)
  }

  /** All lines, up to the first that asks for a rescan. */
  ghost function ReadLines(t: Topo, s: State, lines: seq<Line>): (r: Parsed)
    requires Basic(t, s)
    ensures Listed(t, s, r.state) && Basic(t, r.state) && s.irq.Keys <= r.state.irq.Keys
  {
    if |lines| == 0 then ListedRefl(t, s); Parsed(s, false)
    else
      var p := ReadLines(t, s, lines[..|lines| - 1]);
      if p.bad then p
      else
        var r := ReadLine(t, p.state, lines[|lines| - 1]);
        ListedTrans(t, s, p.state, r.state);
        r
  }

  // ---- removal

  /** remove_no_existing_irq in terms of the invariants. */
  lemma RemoveListed(t: Topo, s: State, i: IrqId)
    requires Basic(t, s) && i in s.irq
    ensures HomeKnown(s, i)
    ensures
      var r := RemoveIrq(s, i);
      && Listed(t, s, r)
      && r.irq.Keys == (if s.irq[i].existing then s.irq.Keys else s.irq.Keys - {i})
      && (forall x :: x in r.irq && x != i ==> r.irq[x] == s.irq[x])
      && (s.irq[i].existing ==> r.irq[i] == s.irq[i].(existing := false))
      && (forall x :: x in r.irq ==> (x in r.db <==> x in s.db))
  {
    hide Owned, Shaped, Reach, FoundAt, Drop;
    RemoveOwned(s, i);
    var r := RemoveIrq(s, i);
    assert Fits(t, r);
    RemovePlaced(t, s, i);
    if !s.irq[i].existing { RemoveRegistered(s, i); }
  }

  lemma RemovePlaced(t: Topo, s: State, i: IrqId)
    requires HomeKnown(s, i) && s.obj.Keys == t.at.Keys
    ensures Placed(t, s) ==> Placed(t, RemoveIrq(s, i))
    ensures Blank(s) ==> Blank(RemoveIrq(s, i))
  {
    hide Shaped, Reach, Drop;
    var r := RemoveIrq(s, i);
    assert r.obj.Keys == s.obj.Keys;
    if Placed(t, s) {
      forall o | o in Reach(t) && o in r.obj && o in t.at
        ensures SlotOk(t.at[o].kind, r.obj[o])
      {
        assert SlotOk(t.at[o].kind, s.obj[o]);
      }
    }
  }

  ghost predicate AllKnown(s: State, list: seq<IrqId>) { forall i :: i in list ==> i in s.irq }

  /** r is s after remove_no_existing_irq on each of list. */
  ghost predicate Swept(s: State, list: seq<IrqId>, r: State) {
    && r.irq.Keys <= s.irq.Keys && (forall x :: x in r.irq ==> (x in r.db <==> x in s.db))
    && (forall x :: x in s.irq && x !in list ==> x in r.irq && r.irq[x] == s.irq[x])
    && (forall x :: x in s.irq && x in list ==> (x in r.irq <==> s.irq[x].existing))
    && (forall x :: x in list && x in r.irq && x in s.irq ==> r.irq[x] == s.irq[x].(existing := false))
  }

  /** for_each_irq(list, remove_no_existing_irq) */
  ghost function RemoveAll(t: Topo, s: State, list: seq<IrqId>): (r: State)
    requires Basic(t, s) && AllKnown(s, list) && NoDup(list)
    ensures Listed(t, s, r) && Basic(t, r) && Swept(s, list, r)
  {
    if |list| == 0 then ListedRefl(t, s); s
    else
      LastApart(list);
      assert list[|list| - 1] in list;
      var q := RemoveAll(t, s, list[..|list| - 1]);
      RemoveNext(t, s, q, list);
      RemoveIrq(q, list[|list| - 1])
  }

  lemma RemoveNext(t: Topo, s: State, q: State, list: seq<IrqId>)
    requires Basic(t, s) && AllKnown(s, list) && NoDup(list) && |list| > 0
    requires Listed(t, s, q) && Basic(t, q) && Swept(s, list[..|list| - 1], q)
    ensures
      var i := list[|list| - 1];
      && HomeKnown(q, i)
      && var r := RemoveIrq(q, i);
         Listed(t, s, r) && Basic(t, r) && Swept(s, list, r)
  {
    hide Listed, Basic, RemoveIrq, NoDup;
    var i := list[|list| - 1];
    LastApart(list);
    assert i in q.irq;
    RemoveListed(t, q, i);
    ListedMeans(t, q, RemoveIrq(q, i));
    ListedTrans(t, s, q, RemoveIrq(q, i));
  }

  lemma RegisteredLists(s: State)
    requires Owned(s)
    ensures AllKnown(s, s.db) && AllKnown(s, s.banned) && NoDup(s.db) && NoDup(s.banned)
    ensures forall x :: x in s.irq <==> x in s.db || x in s.banned
    ensures forall x :: x in s.db ==> x !in s.banned
  {
    hide FoundAt, NoRepeat, NoDup;
  }

  /** clear_no_existing_irqs */
  ghost function ClearGone(t: Topo, s: State): (r: State)
    requires Basic(t, s)
    ensures Listed(t, s, r) && Basic(t, r) && r.irq.Keys <= s.irq.Keys
  {
    RegisteredLists(s);
    var s1 := RemoveAll(t, s, s.db);
    RegisteredLists(s1);
    var r := RemoveAll(t, s1, s1.banned);
    ListedTrans(t, s, s1, r);
    r
  }

  /** /proc/interrupts: it cannot be read, or has these lines after the header. */
  datatype File = Unreadable | Lines(lines: seq<Line>)

  /** parse_proc_interrupts; `need` is need_rescan on entry, `bad` on return. An unreadable file changes nothing. */
  ghost function ReadInterrupts(t: Topo, s: State, file: File, need: bool): (r: Parsed)
    requires Basic(t, s)
    ensures Listed(t, s, r.state) && Basic(t, r.state)
  {
    match file
    case Unreadable => ListedRefl(t, s); Parsed(s, need)
    case Lines(lines) =>
      var p := ReadLines(t, s, lines);
      if need || p.bad then Parsed(p.state, true)
      else
        var r := ClearGone(t, p.state);
        ListedTrans(t, s, p.state, r);
        Parsed(r, false)
  }

  // ---- after a reading the registered interrupts are the lines

  ghost predicate Fresh(s: State) { forall x :: x in s.irq ==> !s.irq[x].existing }

  function Numbers(lines: seq<Line>): set<IrqId> { set l | l in lines :: l.irq }

  /** A line marks its own interrupt and leaves the others alone. */
  lemma ReadLineMarks(t: Topo, s: State, l: Line)
    requires Basic(t, s)
    ensures
      var r := ReadLine(t, s, l).state;
      r.irq[l.irq].existing && forall x :: x in s.irq && x != l.irq ==> r.irq[x] == s.irq[x]
  {
    hide Owned, Shaped, Listed, Hotplug;
    SomeNodes(t);
    UnknownIrq(s, l.irq);
    if l.irq !in s.irq { HotplugShape(s, l.irq, KnownInfo(t, l.info)); }
  }

  lemma {:induction false} ReadLinesMark(t: Topo, s: State, lines: seq<Line>)
    requires Basic(t, s) && Fresh(s) && !ReadLines(t, s, lines).bad
    ensures
      var r := ReadLines(t, s, lines).state;
      r.irq.Keys == s.irq.Keys + Numbers(lines) && forall x :: x in r.irq ==> (r.irq[x].existing <==> x in Numbers(lines))
    decreases |lines|
  {
    hide Basic, Listed, ReadLine;
    if |lines| > 0 {
      var init, l := lines[..|lines| - 1], lines[|lines| - 1];
      assert lines == init + [l];
      assert Numbers(lines) == Numbers(init) + {l.irq};
      var p := ReadLines(t, s, init);
      if !p.bad {
        ReadLinesMark(t, s, init);
        ReadLineMarks(t, p.state, l);
      }
    }
  }

  /** Interrupts that are no longer listed are gone, new ones are there, and the marks are ready for the next reading. */
  lemma ReadInterruptsExact(t: Topo, s: State, file: File, need: bool)
    requires Basic(t, s) && Fresh(s) && !ReadInterrupts(t, s, file, need).bad
    ensures
      var r := ReadInterrupts(t, s, file, need).state;
      Fresh(r) && r.irq.Keys == if file.Unreadable? then s.irq.Keys else Numbers(file.lines)
  {
    hide Owned, Shaped, Listed, ReadLines, RemoveAll, Numbers;
    if file.Lines? {
      ReadLinesMark(t, s, file.lines);
      SweepExact(t, ReadLines(t, s, file.lines).state, Numbers(file.lines));
    }
  }

  lemma SweepExact(t: Topo, p: State, seen: set<IrqId>)
    requires Basic(t, p) && seen <= p.irq.Keys && forall x :: x in p.irq ==> (p.irq[x].existing <==> x in seen)
    ensures Fresh(ClearGone(t, p)) && ClearGone(t, p).irq.Keys == seen
  {
    hide Owned, Shaped, Listed, RemoveAll;
    RegisteredLists(p);
    var s1 := RemoveAll(t, p, p.db);
    RegisteredLists(s1);
    var r := RemoveAll(t, s1, s1.banned);
    forall x | x in r.irq
      ensures x in seen && !r.irq[x].existing
    {
      if x in p.db { assert x in s1.irq && !s1.irq[x].existing; }
      if x in s1.banned { assert x !in p.db; }
    }
  }
}
