/** What activation does, field by field: which writes are made and what each kernel answer means. */
module Effects {
  import opened Topology
  import opened Irqs
  import opened Invariant
  import opened Placement
  import opened Balance
  import opened Activate
  import opened Activation
  import opened Slots

  // ---- the search for another CPU, by fields

  /** A CPU other than the refusing one, with a free slot, an unbanned bit, and none of its bits tried before. */
  ghost predicate Spare(t: Topo, s: State, c: ObjId, original: ObjId, tried: set<nat>) {
    && c in t.at && c in s.obj && t.at[c].kind == Cpu && c != original && s.obj[c].slots >= 1
    && (exists b :: b in t.at[c].mask && b !in t.banned) && (forall b :: b in t.at[c].mask ==> b !in tried)
  }

  lemma SpareIs(t: Topo, s: State, c: ObjId, original: ObjId, tried: set<nat>)
    ensures Candidate(t, s, c, original, tried) <==> Spare(t, s, c, original, tried)
  {
    if c in t.at && c in s.obj {
      if Usable(t, c) {
        var b :| b in t.at[c].mask - t.banned;
        assert b in t.at[c].mask && b !in t.banned;
      } else {
        forall b | b in t.at[c].mask
          ensures b in t.banned
        {
          assert b !in t.at[c].mask - t.banned;
        }
      }
      assert t.at[c].mask * tried == {} <==> forall b :: b in t.at[c].mask ==> b !in tried by {
        if t.at[c].mask * tried != {} {
          var b :| b in t.at[c].mask * tried;
          assert b in t.at[c].mask && b in tried;
        } else {
          forall b | b in t.at[c].mask
            ensures b !in tried
          {
            assert b !in t.at[c].mask * tried;
          }
        }
      }
    }
  }

  /** find_best_cpu_under_obj: a spare CPU below with the most slots, or there is none. */
  lemma SearchByFields(t: Topo, s: State, o: ObjId, original: ObjId, tried: set<nat>)
    requires Shaped(t) && s.obj.Keys == t.at.Keys && o in t.at
    ensures
      match FindUnder(t, s, o, original, tried)
      case Some(c) =>
        && c in Desc(t, o) && Spare(t, s, c, original, tried)
        && forall x :: x in Desc(t, o) && Spare(t, s, x, original, tried) ==> s.obj[x].slots <= s.obj[c].slots
      case None => forall x :: x in Desc(t, o) ==> !Spare(t, s, x, original, tried)
  {
    hide FindUnder, Desc, Shaped, Spare, Candidate;
    FindUnderIsBest(t, s, o, original, tried);
    forall x | x in Desc(t, o)
      ensures Candidate(t, s, x, original, tried) <==> Spare(t, s, x, original, tried)
    {
      SpareIs(t, s, x, original, tried);
    }
    var r := FindUnder(t, s, o, original, tried);
    forall x | x in Desc(t, o) && Spare(t, s, x, original, tried)
      ensures r.Some? && r.value in s.obj && x in s.obj && s.obj[x].slots <= s.obj[r.value].slots
    {
      SpareKnown(t, s, x, original, tried);
      SpareKnown(t, s, r.value, original, tried);
    }
  }

  lemma SpareKnown(t: Topo, s: State, c: ObjId, original: ObjId, tried: set<nat>)
    requires Spare(t, s, c, original, tried)
    ensures c in s.obj
  {
  }

  // ---- its order

  /** The CPUs below o in the order in which the search meets them. */
  ghost function Walk(t: Topo, o: ObjId): seq<ObjId>
    requires Shaped(t) && o in t.at
    decreases Rank(t.at[o].kind), |t.at[o].children| + 1
  {
    if t.at[o].kind == Cpu then [o] else WalkFirst(t, o, |t.at[o].children|)
  }

  ghost function WalkFirst(t: Topo, o: ObjId, n: nat): seq<ObjId>
    requires Shaped(t) && o in t.at && n <= |t.at[o].children|
    decreases Rank(t.at[o].kind), n
  {
    if n == 0 then []
    else
      ChildOf(t, o, n - 1);
      WalkFirst(t, o, n - 1) + Walk(t, t.at[o].children[n - 1])
  }

  ghost function SlotsAt(s: State, x: ObjId): int { if x in s.obj then s.obj[x].slots else 0 }

  /** Number k of w has the most slots of the spare ones, and more than those before it. */
  ghost predicate FirstAt(t: Topo, s: State, w: seq<ObjId>, original: ObjId, tried: set<nat>, k: nat) {
    && k < |w| && Spare(t, s, w[k], original, tried)
    && (forall j :: 0 <= j < |w| && Spare(t, s, w[j], original, tried) ==> SlotsAt(s, w[j]) <= SlotsAt(s, w[k]))
    && (forall j :: 0 <= j < k && Spare(t, s, w[j], original, tried) ==> SlotsAt(s, w[j]) < SlotsAt(s, w[k]))
  }

  ghost predicate FirstBest(t: Topo, s: State, w: seq<ObjId>, original: ObjId, tried: set<nat>, r: Option<ObjId>) {
    match r
    case None => forall j :: 0 <= j < |w| ==> !Spare(t, s, w[j], original, tried)
    case Some(b) => exists k: nat :: FirstAt(t, s, w, original, tried, k) && w[k] == b
  }

  /** Of two walks one after the other the second wins only with more slots. */
  lemma JoinBest(t: Topo, s: State, v: seq<ObjId>, w: seq<ObjId>, original: ObjId, tried: set<nat>, a: Option<ObjId>, b: Option<ObjId>)
    requires FirstBest(t, s, v, original, tried, a) && FirstBest(t, s, w, original, tried, b)
    ensures FirstBest(t, s, v + w, original, tried, if b.Some? && (a.None? || SlotsAt(s, b.value) > SlotsAt(s, a.value)) then b else a)
  {
    hide Spare, SlotsAt;
    if b.Some? && (a.None? || SlotsAt(s, b.value) > SlotsAt(s, a.value)) {
      var k: nat :| FirstAt(t, s, w, original, tried, k) && w[k] == b.value;
      assert FirstAt(t, s, v + w, original, tried, |v| + k);
    } else if a.Some? {
      var k: nat :| FirstAt(t, s, v, original, tried, k) && v[k] == a.value;
      assert FirstAt(t, s, v + w, original, tried, k);
    }
  }

  /** find_best_cpu_under_obj takes the first of those with the most slots. */
  lemma {:induction false} SearchInOrder(t: Topo, s: State, o: ObjId, original: ObjId, tried: set<nat>)
    requires Shaped(t) && s.obj.Keys == t.at.Keys && o in t.at
    ensures FirstBest(t, s, Walk(t, o), original, tried, FindUnder(t, s, o, original, tried))
    decreases Rank(t.at[o].kind), |t.at[o].children| + 1
  {
    hide Shaped, Spare, Usable;
    if t.at[o].kind == Cpu {
      SpareIs(t, s, o, original, tried);
      if ValidFallback(t, s, o, original, tried) { assert FirstAt(t, s, [o], original, tried, 0); }
    } else {
      ChildrenInOrder(t, s, o, |t.at[o].children|, original, tried);
    }
  }

  lemma {:induction false} ChildrenInOrder(t: Topo, s: State, o: ObjId, n: nat, original: ObjId, tried: set<nat>)
    requires Shaped(t) && s.obj.Keys == t.at.Keys && o in t.at && n <= |t.at[o].children|
    ensures FirstBest(t, s, WalkFirst(t, o, n), original, tried, FindAmong(t, s, o, n, original, tried))
    decreases Rank(t.at[o].kind), n
  {
    hide Shaped, Spare, FirstBest, FindUnder, Walk;
    if n == 0 {
      NoneBest(t, s, original, tried);
    } else {
      ChildOf(t, o, n - 1);
      ChildrenInOrder(t, s, o, n - 1, original, tried);
      SearchInOrder(t, s, t.at[o].children[n - 1], original, tried);
      JoinBest(t, s, WalkFirst(t, o, n - 1), Walk(t, t.at[o].children[n - 1]), original, tried,
               FindAmong(t, s, o, n - 1, original, tried), FindUnder(t, s, t.at[o].children[n - 1], original, tried));
    }
  }

  lemma NoneBest(t: Topo, s: State, original: ObjId, tried: set<nat>)
    ensures FirstBest(t, s, [], original, tried, None)
  {
  }

  // ---- the scope of the search

  /** n steps up the parent links. */
  ghost function Up(t: Topo, o: Option<ObjId>, n: nat): Option<ObjId>
    requires Shaped(t)
    decreases n
  {
    if n == 0 || o.None? || o.value !in t.at then o else Up(t, t.at[o.value].parent, n - 1)
  }

  /** a is the first object of kind k at or above o; none if there is none. */
  ghost predicate FirstAbove(t: Topo, o: Option<ObjId>, k: Kind, a: Option<ObjId>)
    requires Shaped(t)
  {
    match a
    case Some(x) => x in t.at && t.at[x].kind == k && exists n :: AboveAt(t, o, k, x, n)
    case None => forall n :: !OfKind(t, Up(t, o, n), k)
  }

  ghost predicate OfKind(t: Topo, o: Option<ObjId>, k: Kind) { o.Some? && o.value in t.at && t.at[o.value].kind == k }

  ghost predicate AboveAt(t: Topo, o: Option<ObjId>, k: Kind, x: ObjId, n: nat)
    requires Shaped(t)
  {
    Up(t, o, n) == Some(x) && forall j :: 0 <= j < n ==> !OfKind(t, Up(t, o, j), k)
  }

  lemma {:induction false} AncestorIsFirst(t: Topo, o: Option<ObjId>, k: Kind)
    requires Shaped(t) && (o.Some? ==> o.value in t.at)
    ensures FirstAbove(t, o, k, Ancestor(t, o, k))
    decreases if o.Some? then 4 - Rank(t.at[o.value].kind) else 0
  {
    if o.None? {
      forall n ensures !OfKind(t, Up(t, o, n), k) { }
    } else if t.at[o.value].kind == k {
      assert AboveAt(t, o, k, o.value, 0);
    } else {
      var p := t.at[o.value].parent;
      AncestorIsFirst(t, p, k);
      match Ancestor(t, o, k)
      case Some(x) =>
        var n: nat :| AboveAt(t, p, k, x, n);
        forall j | 0 <= j < n + 1
          ensures !OfKind(t, Up(t, o, j), k)
        {
          if j > 0 { assert Up(t, o, j) == Up(t, p, j - 1); }
        }
        assert Up(t, o, n + 1) == Up(t, p, n);
        assert AboveAt(t, o, k, x, n + 1);
      case None =>
        forall n: nat
          ensures !OfKind(t, Up(t, o, n), k)
        {
          if n > 0 { assert Up(t, o, n) == Up(t, p, n - 1); }
        }
    }
  }

  /** From a CPU: the first cache above at cache level, the first package above at package level, nothing otherwise. From elsewhere: that object. */
  lemma ScopeByLevel(t: Topo, original: ObjId, level: Level)
    requires Shaped(t) && original in t.at
    ensures
      var scope := SearchScope(t, original, level);
      if t.at[original].kind != Cpu then scope == Some(original)
      else match level
           case CacheLevel => FirstAbove(t, t.at[original].parent, Cache, scope)
           case PackageLevel => FirstAbove(t, t.at[original].parent, Package, scope)
           case CoreLevel => scope == None
           case NoBalance => scope == None
  {
    hide Ancestor, FirstAbove;
    ParentKnown(t, original);
    AncestorIsFirst(t, t.at[original].parent, Cache);
    AncestorIsFirst(t, t.at[original].parent, Package);
  }

  // ---- a successful fallback

  /** r is s with interrupt i moved from `original` to CPU c and activated there. */
  ghost predicate Landed(t: Topo, s: State, r: State, i: IrqId, original: ObjId, c: ObjId) {
    && i in s.irq && c != original && c in s.obj && original in s.obj && original in t.at && r.obj.Keys == s.obj.Keys
    && r.irq == s.irq[i := s.irq[i].(home := Some(c), moved := false)]
    && r.db == s.db && r.banned == s.banned && r.rebalance == s.rebalance
    && r.obj[c].irqs == s.obj[c].irqs + [i] && r.obj[c].load == s.obj[c].load + s.irq[i].load + 1
    && (s.obj[c].slots != INT_MAX ==> r.obj[c].slots == s.obj[c].slots - 1)
    && r.obj[original].load == s.obj[original].load && (forall x :: x in r.obj[original].irqs <==> x in s.obj[original].irqs && x != i)
    && (t.at[original].kind == Cpu ==> r.obj[original].slots == 0)
  }

  /** The other objects: those refused with ENOSPC on the way have no slot left, the rest is as before. */
  ghost predicate OnlyRefused(s: State, r: State, cs: seq<ObjId>, k: Kernel, attempts: nat, original: ObjId, c: ObjId) {
    r.obj.Keys == s.obj.Keys &&
    forall o :: o in s.obj && o != original && o != c ==>
      r.obj[o] == if Refused(cs, k, attempts, o) then s.obj[o].(slots := 0) else s.obj[o]
  }

  /** The move alone, before the old home is closed and the mark cleared. */
  ghost predicate Carried(s: State, r: State, i: IrqId, original: ObjId, c: ObjId) {
    && i in s.irq && c in s.obj && original in s.obj && r.obj.Keys == s.obj.Keys
    && r.irq == s.irq[i := s.irq[i].(home := Some(c), moved := true)]
    && r.db == s.db && r.banned == s.banned && r.rebalance == s.rebalance
    && r.obj[c].irqs == s.obj[c].irqs + [i] && r.obj[c].load == s.obj[c].load + s.irq[i].load + 1
    && (s.obj[c].slots != INT_MAX ==> r.obj[c].slots == s.obj[c].slots - 1)
    && r.obj[original].load == s.obj[original].load && (forall x :: x in r.obj[original].irqs <==> x in s.obj[original].irqs && x != i)
    && forall o :: o in s.obj && o != original && o != c ==> r.obj[o] == s.obj[o]
  }

  lemma Carries(t: Topo, s: State, i: IrqId, original: ObjId, c: ObjId)
    requires Basic(t, s) && AtHome(s, i, original) && original in t.at && c in t.at && c != original && HomeKnown(s, i)
    ensures Carried(s, MigrateObj(Log(s, i, c), Some(original), Some(c), i), i, original, c)
  {
    hide MigrateObj, Owned, Shaped, Drop, Movable;
    var s1 := Log(s, i, c);
    AtHomeMovable(t, s, i, original);
    MovableMeans(s, i);
    MigrateFound(s1, Some(original), Some(c), i);
    MigrateListAt(s1, Some(original), Some(c), i, Some(c));
    MigrateListAt(s1, Some(original), Some(c), i, Some(original));
    MigrateListAt(s1, Some(original), Some(c), i, None);
    MigrateLoads(s1, Some(original), c, i);
    MoveSlots(s1, Some(original), Some(c), i, c);
    OwnedLists(s);
    DropElems(s.obj[original].irqs, i);
    forall o | o in s.obj && o != original && o != c
      ensures o in MigrateObj(s1, Some(original), Some(c), i).obj && MigrateObj(s1, Some(original), Some(c), i).obj[o] == s.obj[o]
    {
      MigrateElsewhere(s1, Some(original), Some(c), i, o);
    }
  }

  lemma LandsNow(t: Topo, s: State, i: IrqId, original: ObjId, c: ObjId, k: Kernel, attempts: nat)
    requires Basic(t, s) && AtHome(s, i, original) && original in t.at && c in t.at && c != original && HomeKnown(s, i)
    requires Reply(k, attempts) == Done
    ensures
      var s1 := Log(s, i, c);
      var s2 := MigrateObj(s1, Some(original), Some(c), i);
      && original in s2.obj
      && var s3 := if t.at[original].kind == Cpu then Saturate(s2, original) else s2;
         i in s3.irq && Landed(t, s, Settle(s3, i), i, original, c) && OnlyRefused(s, Settle(s3, i), [c], k, attempts, original, c)
  {
    hide MigrateObj, Owned, Shaped, Reply;
    Carries(t, s, i, original, c);
  }

  /** The retry loop on success: the interrupt ends on the CPU tried last. */
  lemma {:induction false} FallbackLands(t: Topo, s: State, i: IrqId, original: ObjId, scope: ObjId, m: set<nat>, attempts: nat, k: Kernel)
    requires Basic(t, s) && AtHome(s, i, original) && scope in t.at && original in t.at && HomeKnown(s, i)
    requires attempts <= MAX_FALLBACK_ATTEMPTS
    ensures
      var f := FallbackLoop(t, s, i, original, scope, m, attempts, k);
      f.ok ==>
        && |f.tried| >= 1
        && var c := f.tried[|f.tried| - 1];
           c in t.at && t.at[c].mask * m == {} && Landed(t, s, f.state, i, original, c) && OnlyRefused(s, f.state, f.tried, k, attempts, original, c)
    decreases MAX_FALLBACK_ATTEMPTS - attempts
  {
    hide FindUnder, Owned, Shaped, MigrateObj, Reply, Landed, OnlyRefused, Desc, BestOf, FallbackLoop, Kept, NextTry;
    LoopStep(t, s, i, original, scope, m, attempts, k);
    if attempts < MAX_FALLBACK_ATTEMPTS && FindUnder(t, s, scope, original, m).Some? {
      var f := FallbackLoop(t, s, i, original, scope, m, attempts, k);
      var c := f.tried[0];
      FindUnderIsBest(t, s, scope, original, m);
      BestIsCpu(t, s, Desc(t, scope), original, m, c);
      BestUntried(t, s, Desc(t, scope), original, m, c);
      if Reply(k, attempts) == Done {
        LoopLands(t, s, i, original, scope, m, attempts, k, c);
      } else {
        var s2 := NextTry(s, i, c, Reply(k, attempts));
        var m' := m + t.at[c].mask;
        TryAgain(t, s, i, c, Reply(k, attempts), original);
        FallbackLands(t, s2, i, original, scope, m', attempts + 1, k);
        if f.ok {
          LandsLater(t, s, f.state, i, original, m, c, f.tried[1..], k, attempts);
          assert f.tried == [c] + f.tried[1..];
        }
      }
    }
  }

  lemma LoopLands(t: Topo, s: State, i: IrqId, original: ObjId, scope: ObjId, m: set<nat>, attempts: nat, k: Kernel, c: ObjId)
    requires Basic(t, s) && AtHome(s, i, original) && scope in t.at && original in t.at && HomeKnown(s, i) && c in t.at && c != original
    requires attempts < MAX_FALLBACK_ATTEMPTS && Reply(k, attempts) == Done && FindUnder(t, s, scope, original, m) == Some(c)
    ensures
      var f := FallbackLoop(t, s, i, original, scope, m, attempts, k);
      f.tried == [c] && Landed(t, s, f.state, i, original, c) && OnlyRefused(s, f.state, [c], k, attempts, original, c)
  {
    hide FindUnder, Owned, Shaped, MigrateObj, Reply, Landed, OnlyRefused, Kept;
    LandsNow(t, s, i, original, c, k, attempts);
  }

  lemma LandsLater(t: Topo, s: State, r: State, i: IrqId, original: ObjId, m: set<nat>, c: ObjId, cs: seq<ObjId>, k: Kernel, attempts: nat)
    requires Shaped(t) && c in t.at && t.at[c].kind == Cpu && c in s.obj && c != original && |cs| >= 1
    requires
      var s2, last := NextTry(s, i, c, Reply(k, attempts)), cs[|cs| - 1];
      && last in t.at && t.at[last].mask * (m + t.at[c].mask) == {}
      && Landed(t, s2, r, i, original, last) && OnlyRefused(s2, r, cs, k, attempts + 1, original, last)
    ensures
      var all := [c] + cs;
      var last := all[|all| - 1];
      last in t.at && t.at[last].mask * m == {} && Landed(t, s, r, i, original, last) && OnlyRefused(s, r, all, k, attempts, original, last)
  {
    hide Reply, Landed, OnlyRefused, Shaped;
    var last := cs[|cs| - 1];
    MaskApart(t, m, c, last);
    LandedLater(t, s, r, i, original, c, last, Reply(k, attempts));
    RefusedLater(s, r, i, c, cs, k, attempts, original, last);
  }

  lemma BestUntried(t: Topo, s: State, under: set<ObjId>, original: ObjId, m: set<nat>, c: ObjId)
    requires BestOf(t, s, under, original, m, Some(c))
    ensures c in t.at && t.at[c].mask * m == {}
  {
  }

  lemma TryAgain(t: Topo, s: State, i: IrqId, c: ObjId, a: Answer, original: ObjId)
    requires Basic(t, s) && AtHome(s, i, original) && c in t.at && c in s.obj && t.at[c].kind == Cpu && HomeKnown(s, i)
    ensures
      var r := NextTry(s, i, c, a);
      Basic(t, r) && AtHome(r, i, original) && HomeKnown(r, i)
  {
    hide Kept, Owned, Shaped;
    var s1 := Log(s, i, c);
    LogKept(t, s, Write(i, c));
    KeptMeans(t, s, s1);
    if a == NoSpace {
      SaturateKept(t, s1, c);
      KeptMeans(t, s1, Saturate(s1, c));
    }
  }

  lemma MaskApart(t: Topo, m: set<nat>, c: ObjId, last: ObjId)
    requires Shaped(t) && c in t.at && last in t.at && t.at[c].kind == Cpu && t.at[last].mask * (m + t.at[c].mask) == {}
    ensures last != c && t.at[last].mask * m == {}
  {
    assert t.at[c].mask != {};
    assert t.at[last].mask * m <= t.at[last].mask * (m + t.at[c].mask);
    assert t.at[c].mask * (m + t.at[c].mask) == t.at[c].mask;
  }

  lemma LandedLater(t: Topo, s: State, r: State, i: IrqId, original: ObjId, c: ObjId, last: ObjId, a: Answer)
    requires c in s.obj && c != original && last != c && Landed(t, NextTry(s, i, c, a), r, i, original, last)
    ensures Landed(t, s, r, i, original, last)
  {
  }

  lemma RefusedLater(s: State, r: State, i: IrqId, c: ObjId, cs: seq<ObjId>, k: Kernel, attempts: nat, original: ObjId, last: ObjId)
    requires c in s.obj && c != last && OnlyRefused(NextTry(s, i, c, Reply(k, attempts)), r, cs, k, attempts + 1, original, last)
    ensures OnlyRefused(s, r, [c] + cs, k, attempts, original, last)
  {
    hide Reply, Refused;
    forall o | o in s.obj && o != original && o != last
      ensures r.obj[o] == if Refused([c] + cs, k, attempts, o) then s.obj[o].(slots := 0) else s.obj[o]
    {
      RefusedCons(c, cs, k, attempts, o);
    }
  }

  // ---- one activation

  /** The writes of interrupt i that r has beyond s, all of them its own. */
  ghost predicate Wrote(s: State, r: State, i: IrqId) {
    s.writes <= r.writes && forall n :: |s.writes| <= n < |r.writes| ==> r.writes[n].irq == i
  }

  /** Nothing but the record of i differs among the records. */
  ghost predicate OnlyRecord(s: State, r: State, i: IrqId) {
    r.irq.Keys == s.irq.Keys && forall x :: x in s.irq && x != i ==> r.irq[x] == s.irq[x]
  }

  /** After ENOSPC: settled, either where the last write put it or waiting again. */
  ghost predicate Resettled(s: State, r: State, i: IrqId) {
    && i in s.irq && i in r.irq && r.irq[i] == s.irq[i].(home := r.irq[i].home, moved := false)
    && match r.irq[i].home
       case Some(c) => Some(c) != s.irq[i].home && |r.writes| > |s.writes| && r.writes[|r.writes| - 1] == Write(i, c)
       case None => i in r.rebalance
  }

  lemma {:induction false} WritesOfAre(i: IrqId, cs: seq<ObjId>)
    ensures |WritesOf(i, cs)| == |cs| && forall n :: 0 <= n < |cs| ==> WritesOf(i, cs)[n] == Write(i, cs[n])
  {
    if |cs| > 0 { WritesOfAre(i, cs[1..]); }
  }

  lemma TryEffect(t: Topo, s: State, i: IrqId, k: Kernel)
    requires Basic(t, s) && HomeKnown(s, i) && i in s.irq && s.irq[i].home.Some? && s.irq[i].level != NoBalance
    ensures
      var f := TryFallback(t, s, i, k);
      && Basic(t, f.state) && Wrote(s, f.state, i) && |f.state.writes| <= |s.writes| + 8
      && (f.ok ==> OnlyRecord(s, f.state, i) && Resettled(s, f.state, i))
      && (!f.ok ==> f.state.irq == s.irq && f.state.rebalance == s.rebalance)
  {
    hide Owned, Shaped, FallbackLoop, Ancestor, Kept, BestOf, Greedy, Desc, Refused, TriedMask, OnlyRefused, NoDup;
    var home := s.irq[i].home.value;
    var f := TryFallback(t, s, i, k);
    TryFallbackMeets(t, s, i, k);
    WritesOfAre(i, f.tried);
    var scope := SearchScope(t, home, s.irq[i].level);
    KeptRefl(t, s);
    InTree(t, s, home);
    if s.irq[i].level != CoreLevel && scope.Some? {
      FallbackKept(t, s, i, home, scope.value, {}, 0, k);
      FallbackLands(t, s, i, home, scope.value, {}, 0, k);
    }
    KeptMeans(t, s, f.state);
  }

  lemma InTree(t: Topo, s: State, o: ObjId)
    requires Basic(t, s) && o in s.obj
    ensures o in t.at
  {
  }

  lemma RefuseEffect(t: Topo, s: State, i: IrqId, k: Kernel)
    requires Basic(t, s) && Linked(s) && i in s.irq && s.irq[i].home.Some? && s.irq[i].level != NoBalance
    ensures
      var r := Refuse(t, s, i, k);
      Wrote(s, r, i) && |r.writes| <= |s.writes| + 8 && OnlyRecord(s, r, i) && Resettled(s, r, i)
  {
    hide Kept, Owned, Shaped, TryFallback, ForceRebalance, Linked;
    LinkedKnows(s, i);
    var home := s.irq[i].home.value;
    InTree(t, s, home);
    var s1 := if t.at[home].kind == Cpu then Saturate(s, home) else s;
    if t.at[home].kind == Cpu { SaturateKept(t, s, home); } else { KeptRefl(t, s); }
    KeptMeans(t, s, s1);
    OwnedLinked(s1);
    LinkedKnows(s1, i);
    TryEffect(t, s1, i, k);
    var f := TryFallback(t, s1, i, k);
    if !f.ok {
      OwnedLinked(f.state);
      LinkedKnows(f.state, i);
      ForcedSlots(t, f.state, i, home);
      ForceOthersToo(f.state, i);
    }
  }

  lemma ForceOthersToo(s: State, i: IrqId)
    requires HomeKnown(s, i) && s.irq[i].home.Some?
    ensures OthersSame(s, ForceRebalance(s, i), i) && ForceRebalance(s, i).writes == s.writes
  {
    hide MigrateObj;
    if s.irq[i].level != NoBalance {
      MigrateOthers(s, s.irq[i].home, None, i);
      MigrateKeepsWrites(s, s.irq[i].home, None, i);
    }
  }

  /** Must the affinity of i be written? It has moved, has a home, and the kernel does not have it already. */
  ghost predicate Due(s: State, i: IrqId, k: Kernel) { i in s.irq && s.irq[i].moved && s.irq[i].home.Some? && !k.already }

  /** activate_mapping, field by field, for every answer. */
  ghost predicate Activated(s: State, r: State, i: IrqId, k: Kernel) {
    && i in s.irq && Wrote(s, r, i) && OnlyRecord(s, r, i)
    && var q := s.irq[i];
       if !q.moved || q.home.None? then r == s
       else if k.already then r == s.(irq := s.irq[i := q.(moved := false)])
       else
         && |r.writes| > |s.writes| && r.writes[|s.writes|] == Write(i, q.home.value)
         && match k.first
            case Done => r == s.(irq := s.irq[i := q.(moved := false)], writes := r.writes) && |r.writes| == |s.writes| + 1
            case Transient => r == s.(writes := r.writes) && |r.writes| == |s.writes| + 1
            case Permanent => r == s.(irq := s.irq[i := q.(level := NoBalance, moved := false)], writes := r.writes) && |r.writes| == |s.writes| + 1
            case NoSpace => Resettled(s, r, i) && |r.writes| <= |s.writes| + 9
  }

  lemma ActivateEffect(t: Topo, s: State, i: IrqId, k: Kernel)
    requires Basic(t, s) && Linked(s) && i in s.irq
    ensures Activated(s, ActivateMapping(t, s, i, k), i, k)
  {
    hide Kept, Owned, Shaped, Refuse, Linked;
    LinkedKnows(s, i);
    var q := s.irq[i];
    if q.moved && q.home.Some? && !k.already {
      MovedIsBalanced(s, i);
      var s1 := Log(s, i, q.home.value);
      LogKept(t, s, Write(i, q.home.value));
      KeptMeans(t, s, s1);
      if k.first == NoSpace {
        OwnedLinked(s1);
        RefuseEffect(t, s1, i, k);
        LaterWrites(s, s1, Refuse(t, s1, i, k), i);
      }
    }
  }

  /** One more write in front. */
  lemma LaterWrites(s: State, s1: State, r: State, i: IrqId)
    requires i in s.irq && s.irq[i].home.Some? && s1 == Log(s, i, s.irq[i].home.value) && Wrote(s1, r, i) && OnlyRecord(s1, r, i) && Resettled(s1, r, i)
    ensures Wrote(s, r, i) && OnlyRecord(s, r, i) && Resettled(s, r, i)
    ensures |r.writes| > |s.writes| && r.writes[|s.writes|] == Write(i, s.irq[i].home.value)
  {
    assert r.writes[|s.writes|] == s1.writes[|s.writes|];
    assert s.writes <= r.writes;
  }

  // ---- the whole database

  /** Does r have a write of i beyond those of s? */
  ghost predicate WrittenTo(s: State, r: State, w: Write) { exists n :: |s.writes| <= n < |r.writes| && r.writes[n] == w }

  ghost predicate NotWritten(s: State, r: State, i: IrqId) { forall n :: |s.writes| <= n < |r.writes| ==> r.writes[n].irq != i }

  /** What the walk has done to interrupt i: its turn had the effect of Activated, before and after nothing touched it. */
  ghost predicate Turned(s: State, r: State, i: IrqId, k: Kernel) {
    && i in s.irq && i in r.irq && s.writes <= r.writes
    && (Due(s, i, k) ==> WrittenTo(s, r, Write(i, s.irq[i].home.value)))
    && (!Due(s, i, k) ==> NotWritten(s, r, i))
    && var q := s.irq[i];
       if !q.moved || q.home.None? then r.irq[i] == q
       else if k.already || k.first == Done then r.irq[i] == q.(moved := false)
       else match k.first
            case Transient => r.irq[i] == q
            case Permanent => r.irq[i] == q.(level := NoBalance, moved := false)
            case _ => !r.irq[i].moved && (r.irq[i].home.Some? ==> WrittenTo(s, r, Write(i, r.irq[i].home.value)))
  }

  ghost predicate Untouched(s: State, r: State, i: IrqId) {
    i in s.irq && i in r.irq && r.irq[i] == s.irq[i] && s.writes <= r.writes && NotWritten(s, r, i)
  }

  lemma TurnNow(s: State, q: State, r: State, i: IrqId, k: Kernel)
    requires Untouched(s, q, i) && Activated(q, r, i, k)
    ensures Turned(s, r, i, k)
  {
    hide OnlyRecord;
    assert s.writes <= r.writes;
    if Due(s, i, k) {
      assert r.writes[|q.writes|] == Write(i, s.irq[i].home.value);
      if k.first == NoSpace && r.irq[i].home.Some? {
        assert r.writes[|r.writes| - 1] == Write(i, r.irq[i].home.value);
      }
    } else {
      assert r.writes == q.writes;
    }
  }

  lemma TurnLater(s: State, q: State, r: State, i: IrqId, j: IrqId, k: Kernel)
    requires i != j && Wrote(q, r, j) && OnlyRecord(q, r, j)
    ensures Untouched(s, q, i) ==> Untouched(s, r, i)
    ensures Turned(s, q, i, k) ==> Turned(s, r, i, k)
  {
    forall w | s.writes <= q.writes && WrittenTo(s, q, w)
      ensures WrittenTo(s, r, w)
    {
      var n :| |s.writes| <= n < |q.writes| && q.writes[n] == w;
      assert r.writes[n] == w;
    }
    if s.writes <= q.writes && NotWritten(s, q, i) {
      forall n | |s.writes| <= n < |r.writes|
        ensures r.writes[n].irq != i
      {
        if n < |q.writes| { assert r.writes[n] == q.writes[n]; }
      }
    }
  }

  lemma {:induction false} ActivateAllEffect(t: Topo, s: State, n: nat, ks: map<IrqId, Kernel>, i: IrqId)
    requires Basic(t, s) && Linked(s) && n <= |s.db| && NoDup(s.db) && i in s.irq
    ensures if i in s.db[..n] then Turned(s, ActivateAll(t, s, n, ks), i, AnswersFor(ks, i)) else Untouched(s, ActivateAll(t, s, n, ks), i)
    decreases n
  {
    hide *;
    BasicMeans(t, s);
    if n == 0 {
      NothingDone(t, s, ks, i);
    } else {
      ActivateAllEffect(t, s, n - 1, ks, i);
      ActivateStep(t, s, n, ks);
      var q, j := ActivateAll(t, s, n - 1, ks), s.db[n - 1];
      ActivateEffect(t, q, j, AnswersFor(ks, j));
      var r := ActivateMapping(t, q, j, AnswersFor(ks, j));
      PrefixOf(s.db, n);
      ActivatedMeans(q, r, j, AnswersFor(ks, j));
      if i == j {
        TurnNow(s, q, r, i, AnswersFor(ks, i));
      } else {
        TurnLater(s, q, r, i, j, AnswersFor(ks, i));
      }
    }
  }

  lemma ActivatedMeans(s: State, r: State, i: IrqId, k: Kernel)
    requires Activated(s, r, i, k)
    ensures Wrote(s, r, i) && OnlyRecord(s, r, i)
  {
  }

  lemma PrefixOf(l: seq<nat>, n: nat)
    requires 0 < n <= |l| && NoDup(l)
    ensures l[n - 1] !in l[..n - 1] && forall x :: x in l[..n] <==> x in l[..n - 1] || x == l[n - 1]
  {
    assert l[..n] == l[..n - 1] + [l[n - 1]];
  }

  lemma NothingDone(t: Topo, s: State, ks: map<IrqId, Kernel>, i: IrqId)
    requires Shaped(t) && s.obj.Keys == t.at.Keys && Linked(s) && i in s.irq
    ensures Untouched(s, ActivateAll(t, s, 0, ks), i) && i !in s.db[..0]
  {
    hide Shaped, Linked;
  }

  /** One step of the walk over the database, and what it can rely on. */
  lemma ActivateStep(t: Topo, s: State, n: nat, ks: map<IrqId, Kernel>)
    requires Basic(t, s) && Linked(s) && 0 < n <= |s.db|
    ensures
      var q, i := ActivateAll(t, s, n - 1, ks), s.db[n - 1];
      && Basic(t, q) && Shaped(t) && q.obj.Keys == t.at.Keys && Linked(q) && i in q.irq
      && ActivateAll(t, s, n, ks) == ActivateMapping(t, q, i, AnswersFor(ks, i))
  {
    hide Owned, Shaped, Kept, ActivateMapping, Linked;
    ActivateAllKept(t, s, n - 1, ks);
    KeptMeans(t, s, ActivateAll(t, s, n - 1, ks));
    DbKnown(s, n - 1);
  }

  /**
   activate_mappings: every interrupt of the database that has moved, has a home and is not set yet is written to its
   home, no other is written; and each kernel answer has its effect on the record.
   */
  lemma ActivationWrites(t: Topo, s: State, ks: map<IrqId, Kernel>, i: IrqId)
    requires Basic(t, s) && Linked(s) && i in s.db
    ensures i in s.irq && Turned(s, ActivateAll(t, s, |s.db|, ks), i, AnswersFor(ks, i))
  {
    hide FoundAt, NoRepeat, NoDup, ActivateAll, Linked, Shaped, Turned, Untouched;
    assert s.db[..|s.db|] == s.db;
    ActivateAllEffect(t, s, |s.db|, ks, i);
  }
}
