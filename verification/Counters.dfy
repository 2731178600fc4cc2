/** The counters of /proc/interrupts: what a line, a reading and two cycles in a row make of them, and when a rescan is due. */
module Counters {
  import opened Topology
  import opened Irqs
  import opened Invariant
  import opened Stat
  import opened Interrupts
  import opened Scan

  /** The total stored for interrupt i, 0 if it is not known. */
  ghost function Stored(s: State, i: IrqId): nat { if i in s.irq then s.irq[i].count else 0 }

  /** The line asks for a rescan: a wrong number of CPUs, or a total below the one stored. */
  ghost predicate Trouble(s: State, l: Line) { !l.cpusOk || l.count < Stored(s, l.irq) }

  /** What an interrupt is when it is first seen: by policy, class and node, without load, home or counts. */
  ghost predicate FirstSeen(t: Topo, q: Irq, n: NewIrq) {
    && q.level == (if n.ban then NoBalance else n.level) && q.cls == n.cls && q.home == None && q.load == 0 && !q.moved
    && |t.nodes| > 0 && q.node == if n.node in t.nodes then n.node else t.nodes[0]
  }

  /** One line, field by field. */
  lemma LineEffect(t: Topo, s: State, l: Line)
    requires Basic(t, s)
    ensures
      var p := ReadLine(t, s, l);
      && l.irq in p.state.irq && p.state.irq[l.irq].existing
      && (forall x :: x in s.irq && x != l.irq ==> x in p.state.irq && p.state.irq[x] == s.irq[x])
      && (p.bad <==> Trouble(s, l))
      && var q := p.state.irq[l.irq];
         && (!p.bad ==> q.count == l.count && q.last == Stored(s, l.irq))
         && (p.bad ==> q.count == Stored(s, l.irq))
         && (l.irq in s.irq ==> q == s.irq[l.irq].(existing := true, count := q.count, last := q.last))
         && (l.irq !in s.irq ==> FirstSeen(t, q, l.info))
  {
    hide Owned, Shaped, Listed, Hotplug;
    SomeNodes(t);
    UnknownIrq(s, l.irq);
    if l.irq !in s.irq { HotplugShape(s, l.irq, KnownInfo(t, l.info)); }
  }

  ghost predicate Distinct(lines: seq<Line>) { forall a, b :: 0 <= a < b < |lines| ==> lines[a].irq != lines[b].irq }

  ghost predicate SomeTrouble(s: State, lines: seq<Line>) { exists k :: 0 <= k < |lines| && Trouble(s, lines[k]) }

  /** The interrupt of a line after the reading: the line's total, and the total stored before. */
  ghost predicate Taken(s: State, r: State, l: Line) {
    l.irq in r.irq && r.irq[l.irq].count == l.count && r.irq[l.irq].last == Stored(s, l.irq)
  }

  ghost predicate AllTaken(s: State, r: State, lines: seq<Line>) {
    forall k :: 0 <= k < |lines| ==> Taken(s, r, lines[k]) && r.irq[lines[k].irq].existing
  }

  /** All lines read from s, with the result p. */
  ghost predicate ReadAll(s: State, p: Parsed, lines: seq<Line>) {
    && (p.bad <==> SomeTrouble(s, lines))
    && (!p.bad ==> AllTaken(s, p.state, lines))
    && (!p.bad ==> forall x :: x !in Numbers(lines) ==> (x in p.state.irq <==> x in s.irq) && (x in s.irq ==> p.state.irq[x] == s.irq[x]))
  }

  lemma {:induction false} LinesEffect(t: Topo, s: State, lines: seq<Line>)
    requires Basic(t, s) && Distinct(lines)
    ensures ReadAll(s, ReadLines(t, s, lines), lines)
    decreases |lines|
  {
    hide Basic, Listed, ReadLine, ReadAll;
    if |lines| == 0 {
      NothingRead(s);
    } else {
      var init, l := lines[..|lines| - 1], lines[|lines| - 1];
      assert Distinct(init);
      LinesEffect(t, s, init);
      var p := ReadLines(t, s, init);
      if p.bad {
        StopsThere(s, p, lines);
      } else {
        LineEffect(t, p.state, l);
        ReadMore(s, p.state, ReadLine(t, p.state, l), lines);
      }
    }
  }

  lemma NothingRead(s: State)
    ensures ReadAll(s, Parsed(s, false), [])
  {
  }

  lemma StopsThere(s: State, p: Parsed, lines: seq<Line>)
    requires |lines| > 0 && p.bad && ReadAll(s, p, lines[..|lines| - 1])
    ensures ReadAll(s, p, lines)
  {
    hide Trouble;
    var init := lines[..|lines| - 1];
    var k :| 0 <= k < |init| && Trouble(s, init[k]);
    assert Trouble(s, lines[k]);
  }

  lemma ReadMore(s: State, q: State, p: Parsed, lines: seq<Line>)
    requires |lines| > 0 && Distinct(lines) && ReadAll(s, Parsed(q, false), lines[..|lines| - 1])
    requires
      var l := lines[|lines| - 1];
      && l.irq in p.state.irq && p.state.irq[l.irq].existing && (p.bad <==> Trouble(q, l)) && p.state.irq.Keys == q.irq.Keys + {l.irq}
      && (forall x :: x in q.irq && x != l.irq ==> x in p.state.irq && p.state.irq[x] == q.irq[x])
      && (!p.bad ==> p.state.irq[l.irq].count == l.count && p.state.irq[l.irq].last == Stored(q, l.irq))
    ensures ReadAll(s, p, lines)
  {
    var init, l := lines[..|lines| - 1], lines[|lines| - 1];
    assert lines == init + [l];
    assert Numbers(lines) == Numbers(init) + {l.irq};
    NotYet(lines, init, l);
    assert Stored(q, l.irq) == Stored(s, l.irq);
    assert SomeTrouble(s, lines) <==> Trouble(s, l) by {
      hide Trouble;
      assert forall k :: 0 <= k < |init| ==> lines[k] == init[k] && !Trouble(s, init[k]);
      if Trouble(s, l) { assert Trouble(s, lines[|init|]); }
    }
    hide SomeTrouble, Trouble;
    if !p.bad {
      forall k | 0 <= k < |lines|
        ensures Taken(s, p.state, lines[k]) && p.state.irq[lines[k].irq].existing
      {
        if k < |init| { assert Taken(s, q, init[k]) && q.irq[init[k].irq].existing; }
      }
    }
  }

  lemma NotYet(lines: seq<Line>, init: seq<Line>, l: Line)
    requires |lines| > 0 && init == lines[..|lines| - 1] && l == lines[|lines| - 1] && Distinct(lines)
    ensures l.irq !in Numbers(init) && forall k :: 0 <= k < |init| ==> init[k].irq != l.irq
  {
  }

  /** clear_no_existing_irqs leaves the counters of marked interrupts alone. */
  lemma SweepKeeps(t: Topo, p: State, x: IrqId)
    requires Basic(t, p) && x in p.irq && p.irq[x].existing
    ensures x in ClearGone(t, p).irq && ClearGone(t, p).irq[x] == p.irq[x].(existing := false)
  {
    hide Owned, Shaped, Listed, RemoveAll;
    RegisteredLists(p);
    var s1 := RemoveAll(t, p, p.db);
    RegisteredLists(s1);
    if x in p.db {
      assert x in s1.irq && x in s1.db;
    } else {
      assert x in s1.irq && x !in s1.db && x in s1.banned;
    }
  }

  /** parse_proc_interrupts on lines with distinct numbers: when it asks for a rescan, and what the counters are otherwise. */
  lemma ReadingEffect(t: Topo, s: State, lines: seq<Line>, need: bool)
    requires Basic(t, s) && Distinct(lines)
    ensures
      var p := ReadInterrupts(t, s, Lines(lines), need);
      && (p.bad <==> need || SomeTrouble(s, lines))
      && (!p.bad ==> forall k :: 0 <= k < |lines| ==> Taken(s, p.state, lines[k]))
  {
    hide Basic, ReadLines, Listed, ClearGone, SomeTrouble;
    LinesEffect(t, s, lines);
    var q := ReadLines(t, s, lines);
    if !need && !q.bad {
      forall k | 0 <= k < |lines|
        ensures Taken(s, ClearGone(t, q.state), lines[k])
      {
        SweepKeeps(t, q.state, lines[k].irq);
      }
    }
  }

  // ---- over cycles

  lemma SameStored(s: State, r: State, i: IrqId)
    requires SameMarks(s, r) && r.irq.Keys == s.irq.Keys
    ensures Stored(r, i) == Stored(s, i)
  {
  }

  lemma KeptCounts(t: Topo, s: State, r: State)
    requires Kept(t, s, r)
    ensures SameMarks(s, r) && r.irq.Keys == s.irq.Keys
  {
    hide Basic, Placed, Frozen;
  }

  lemma SameTrouble(s: State, r: State, lines: seq<Line>)
    requires SameMarks(s, r) && r.irq.Keys == s.irq.Keys
    ensures SomeTrouble(r, lines) <==> SomeTrouble(s, lines)
  {
    hide SameMarks;
    forall k | 0 <= k < |lines|
      ensures Trouble(r, lines[k]) <==> Trouble(s, lines[k])
    {
      SameStored(s, r, lines[k].irq);
    }
  }

  /**
   A cycle rebuilds the tree if and only if a rescan was left over, SIGHUP came after the first cycle, or some
   line has the wrong number of CPUs or a total below the one stored.
   */
  lemma RescanExactly(d: Daemon, input: Input)
    requires Safe(d) && (input.lines.Lines? ==> Distinct(input.lines.lines))
    ensures
      Rescans(d, input) <==>
        || d.rescan || (input.hup && d.cycle > 0)
        || (input.lines.Lines? && SomeTrouble(d.s, input.lines.lines))
  {
    hide Owned, Shaped, Placed, ClearWork, ReadInterrupts, Kept, Frozen, Cleared, Listed, SomeTrouble, Distinct, SameMarks;
    ClearWorkKept(d.t, d.s);
    var s, need := ClearWork(d.t, d.s), d.rescan || (input.hup && d.cycle > 0);
    KeptCounts(d.t, d.s, s);
    match input.lines
    case Unreadable => NoLines(d.t, s, need);
    case Lines(lines) =>
      ReadingEffect(d.t, s, lines, need);
      SameTrouble(d.s, s, lines);
  }

  lemma NoLines(t: Topo, s: State, need: bool)
    requires Basic(t, s)
    ensures ReadInterrupts(t, s, Unreadable, need) == Parsed(s, need)
  {
    hide Basic, Listed;
  }

  /** The first half of a cycle without a rescan: every line's total is stored, and the one before is kept beside it. */
  lemma ObserveCounts(d: Daemon, input: Input, k: nat)
    requires Safe(d) && !Rescans(d, input) && input.lines.Lines? && Distinct(input.lines.lines) && k < |input.lines.lines|
    ensures Taken(d.s, Observe(d, input).state, input.lines.lines[k])
  {
    hide Owned, Shaped, Placed, ClearWork, ReadInterrupts, Kept, Frozen, Cleared, Listed, SomeTrouble, Distinct, SameMarks;
    ClearWorkKept(d.t, d.s);
    var s, need := ClearWork(d.t, d.s), d.rescan || (input.hup && d.cycle > 0);
    KeptCounts(d.t, d.s, s);
    ReadingEffect(d.t, s, input.lines.lines, need);
    SameStored(d.s, s, input.lines.lines[k].irq);
  }

  /** The rest of the cycle leaves the counters alone, and counts the cycle. */
  lemma CycleCounts(d: Daemon, input: Input, machine: bool)
    requires Safe(d)
    ensures
      var r := Cycle(d, input, machine);
      && r.cycle == (if Rescans(d, input) then 0 else d.cycle + 1)
      && (!Rescans(d, input) ==>
            !r.rescan && SameMarks(Observe(d, input).state, r.s) && r.s.irq.Keys == Observe(d, input).state.irq.Keys)
  {
    hide Basic, Placed, Observe, Selected, Settled, Kept, Frozen, FreshState, ReadInterrupts, ReadStat, TopoOf, ClearSlots, SameMarks;
    var p := Observe(d, input);
    if !p.bad {
      var s1 := Selected(d.t, d.cycle, p.state, input, machine);
      var s2 := Settled(d.t, s1, input);
      KeptTrans(d.t, p.state, s1, s2);
      KeptCounts(d.t, p.state, s2);
    }
  }

  /**
   Two cycles in a row without a rescan: when the second attributes load, the count of an interrupt since the last
   reading is the difference of the two totals read.
   */
  lemma CountsBetween(d: Daemon, one: Input, two: Input, machine: bool, a: nat, b: nat)
    requires Safe(d) && !Rescans(d, one) && one.lines.Lines? && Distinct(one.lines.lines) && a < |one.lines.lines|
    requires
      var e := Cycle(d, one, machine);
      !Rescans(e, two) && two.lines.Lines? && Distinct(two.lines.lines) && b < |two.lines.lines|
    requires one.lines.lines[a].irq == two.lines.lines[b].irq
    ensures
      var r := Observe(Cycle(d, one, machine), two).state;
      var i := two.lines.lines[b].irq;
      i in r.irq && r.irq[i].count - r.irq[i].last == two.lines.lines[b].count - one.lines.lines[a].count
  {
    hide Safe, Observe, Cycle, Distinct, Rescans;
    var e := Cycle(d, one, machine);
    ObserveCounts(d, one, a);
    CycleCounts(d, one, machine);
    ObserveCounts(e, two, b);
  }
}
