/** activate_mappings over the whole database, and the invariants it keeps under any kernel answers. */
module Activation {
  import opened Topology
  import opened Irqs
  import opened Invariant
  import opened Activate

  /** activate_mapping */
  function ActivateMapping(t: Topo, s: State, i: IrqId, k: Kernel): (r: State)
    requires Shaped(t) && s.obj.Keys == t.at.Keys && Linked(s) && i in s.irq
    ensures SameFrame(s, r)
  {
    LinkedKnows(s, i);
    FrameSettle(s, i);
    var q := s.irq[i];
    if !q.moved || q.home.None? then s
    else if k.already then Settle(s, i)
    else
      var s1 := Log(s, i, q.home.value);
      FrameLog(s, i, q.home.value);
      FrameSettle(s1, i);
      match k.first
      case Done => Settle(s1, i)
      case Transient => s1
      case Permanent =>
        FrameIrq(s1, i, q.(level := NoBalance, moved := false));
        WithIrq(s1, i, q.(level := NoBalance, moved := false))
      case NoSpace => Refuse(t, s1, i, k)
  }

  /** The ENOSPC case: mark the CPU, look for another one, and otherwise wait for the next cycle. */
  function Refuse(t: Topo, s: State, i: IrqId, k: Kernel): (r: State)
    requires Shaped(t) && s.obj.Keys == t.at.Keys && Linked(s) && i in s.irq && s.irq[i].home.Some?
    ensures SameFrame(s, r)
  {
    LinkedKnows(s, i);
    var home := s.irq[i].home.value;
    FrameObj(s, home, s.obj[home].(slots := SLOTS_SATURATED));
    var s1 := if t.at[home].kind == Cpu then Saturate(s, home) else s;
    LinkedKnows(s1, i);
    FrameTry(t, s1, i, k);
    var f := TryFallback(t, s1, i, k);
    if f.ok then f.state
    else
      LinkedKnows(f.state, i);
      FrameForce(f.state, i);
      FrameSettle(ForceRebalance(f.state, i), i);
      Settle(ForceRebalance(f.state, i), i)
  }

  lemma FrameSettle(s: State, i: IrqId)
    requires Linked(s) && i in s.irq
    ensures SameFrame(s, Settle(s, i))
  {
    LinkedKnows(s, i);
    FrameIrq(s, i, s.irq[i].(moved := false));
  }

  lemma FindIsFree(t: Topo, s: State, scope: ObjId, original: ObjId, tried: set<nat>)
    requires Shaped(t) && s.obj.Keys == t.at.Keys && scope in t.at
    ensures
      var r := FindUnder(t, s, scope, original, tried);
      r.Some? ==> r.value in t.at && t.at[r.value].kind == Cpu && s.obj[r.value].slots > 0
  {
    hide Desc, FindUnder, Usable, Shaped;
    FindUnderIsBest(t, s, scope, original, tried);
  }

  lemma SaturateKept(t: Topo, s: State, o: ObjId)
    requires Basic(t, s) && o in t.at && o in s.obj && t.at[o].kind == Cpu
    ensures Kept(t, s, Saturate(s, o))
    ensures Saturate(s, o).irq == s.irq
  {
    hide Kept, FoundAt, NoRepeat, NoDup, Shaped;
    var r := Saturate(s, o);
    assert Registered(s);
    assert Quiet(s, r);
    QuietKept(t, s, r);
  }

  lemma SettleKept(t: Topo, s: State, i: IrqId)
    requires Basic(t, s) && i in s.irq
    ensures Kept(t, s, Settle(s, i))
  {
    IrqKept(t, s, i, s.irq[i].(moved := false));
  }

  /** Interrupt i is balanced, at home at `original`, and can be moved. */
  ghost predicate AtHome(s: State, i: IrqId, original: ObjId) {
    i in s.irq && s.irq[i].level != NoBalance && s.irq[i].home == Some(original)
  }

  lemma AtHomeMovable(t: Topo, s: State, i: IrqId, original: ObjId)
    requires Basic(t, s) && AtHome(s, i, original)
    ensures HomeKnown(s, i) && Movable(s, i) && original in t.at && i in s.db
  {
    hide FoundAt, NoRepeat, Shaped;
    InDb(s, i);
    OwnedMovable(s, i);
  }

  /** The retry loop keeps the invariants, whatever the kernel answers. */
  lemma {:induction false} FallbackKept(t: Topo, s: State, i: IrqId, original: ObjId, scope: ObjId, m: set<nat>, attempts: nat, k: Kernel)
    requires Basic(t, s) && AtHome(s, i, original) && scope in t.at && original in t.at && HomeKnown(s, i)
    ensures
      var r := FallbackLoop(t, s, i, original, scope, m, attempts, k);
      && Kept(t, s, r.state)
      && (!r.ok ==> r.state.irq == s.irq)
    decreases MAX_FALLBACK_ATTEMPTS - attempts
  {
    hide Kept, FindUnder, Owned, Shaped, MigrateObj, Movable;
    var f := FindUnder(t, s, scope, original, m);
    if attempts >= MAX_FALLBACK_ATTEMPTS || f.None? {
      KeptRefl(t, s);
    } else {
      var c := f.value;
      FindIsFree(t, s, scope, original, m);
      var s1 := Log(s, i, c);
      LogKept(t, s, Write(i, c));
      KeptMeans(t, s, s1);
      if Reply(k, attempts) == Done {
        FallbackDone(t, s1, i, original, c);
        var s2 := MigrateObj(s1, Some(original), Some(c), i);
        var s3 := if t.at[original].kind == Cpu then Saturate(s2, original) else s2;
        KeptTrans(t, s, s1, Settle(s3, i));
      } else {
        var s2 := if Reply(k, attempts) == NoSpace then Saturate(s1, c) else s1;
        if Reply(k, attempts) == NoSpace { SaturateKept(t, s1, c); } else { KeptRefl(t, s1); }
        KeptMeans(t, s1, s2);
        FallbackKept(t, s2, i, original, scope, m + t.at[c].mask, attempts + 1, k);
        KeptTrans(t, s, s1, s2);
        KeptTrans(t, s, s2, FallbackLoop(t, s2, i, original, scope, m + t.at[c].mask, attempts + 1, k).state);
      }
    }
  }

  /** A successful fallback: the interrupt moves, a saturated CPU stays saturated. */
  lemma FallbackDone(t: Topo, s: State, i: IrqId, original: ObjId, c: ObjId)
    requires Basic(t, s) && AtHome(s, i, original) && original in t.at
    requires c in t.at && t.at[c].kind == Cpu && s.obj[c].slots > 0
    ensures HomeKnown(s, i)
    ensures
      var s2 := MigrateObj(s, Some(original), Some(c), i);
      && original in s2.obj
      && var s3 := if t.at[original].kind == Cpu then Saturate(s2, original) else s2;
         i in s3.irq && Kept(t, s, Settle(s3, i)) && Settle(s3, i).irq[i].home == Some(c)
  {
    hide Kept, Owned, Shaped, MigrateObj, Movable, Reach;
    AtHomeMovable(t, s, i, original);
    MovableMeans(s, i);
    var s2 := MigrateObj(s, Some(original), Some(c), i);
    assert Placed(t, s) ==> c in Reach(t);
    MigrateKept(t, s, Some(original), Some(c), i);
    MigrateFound(s, Some(original), Some(c), i);
    KeptMeans(t, s, s2);
    var s3 := if t.at[original].kind == Cpu then Saturate(s2, original) else s2;
    if t.at[original].kind == Cpu { SaturateKept(t, s2, original); } else { KeptRefl(t, s2); }
    KeptMeans(t, s2, s3);
    KeptTrans(t, s, s2, s3);
    SettleKept(t, s3, i);
    KeptTrans(t, s, s3, Settle(s3, i));
  }

  /** activate_mapping keeps the invariants, whatever the kernel answers. */
  lemma ActivateKept(t: Topo, s: State, i: IrqId, k: Kernel)
    requires Basic(t, s) && Linked(s) && i in s.irq
    ensures Kept(t, s, ActivateMapping(t, s, i, k))
  {
    hide Kept, Owned, Shaped, Refuse;
    OwnedLinked(s);
    LinkedKnows(s, i);
    var q := s.irq[i];
    if !q.moved || q.home.None? {
      KeptRefl(t, s);
    } else if k.already {
      SettleKept(t, s, i);
    } else {
      var home := q.home.value;
      assert q.level != NoBalance by { MovedIsBalanced(s, i); }
      var s1 := Log(s, i, home);
      LogKept(t, s, Write(i, home));
      KeptMeans(t, s, s1);
      match k.first
      case Done =>
        SettleKept(t, s1, i);
        KeptTrans(t, s, s1, Settle(s1, i));
      case Transient =>
      case Permanent =>
        UnmanageKept(t, s1, i);
        KeptTrans(t, s, s1, WithIrq(s1, i, q.(level := NoBalance, moved := false)));
      case NoSpace =>
        OwnedLinked(s1);
        RefuseKept(t, s1, i, k);
        KeptTrans(t, s, s1, Refuse(t, s1, i, k));
    }
  }

  lemma UnmanageKept(t: Topo, s: State, i: IrqId)
    requires Basic(t, s) && i in s.irq && s.irq[i].home.Some?
    ensures Kept(t, s, WithIrq(s, i, s.irq[i].(level := NoBalance, moved := false)))
  {
    IrqKept(t, s, i, s.irq[i].(level := NoBalance, moved := false));
  }

  lemma RefuseKept(t: Topo, s: State, i: IrqId, k: Kernel)
    requires Basic(t, s) && Linked(s) && i in s.irq && s.irq[i].home.Some? && s.irq[i].level != NoBalance
    ensures Kept(t, s, Refuse(t, s, i, k))
  {
    hide Kept, Owned, Shaped, FallbackLoop, ForceRebalance, Linked;
    LinkedKnows(s, i);
    var home := s.irq[i].home.value;
    var s1 := if t.at[home].kind == Cpu then Saturate(s, home) else s;
    if t.at[home].kind == Cpu { SaturateKept(t, s, home); } else { KeptRefl(t, s); }
    KeptMeans(t, s, s1);
    OwnedLinked(s1);
    LinkedKnows(s1, i);
    var f := TryFallback(t, s1, i, k);
    var scope := SearchScope(t, home, s.irq[i].level);
    if s.irq[i].level == CoreLevel || scope.None? {
      KeptRefl(t, s1);
    } else {
      FallbackKept(t, s1, i, home, scope.value, {}, 0, k);
    }
    KeptMeans(t, s1, f.state);
    KeptTrans(t, s, s1, f.state);
    if !f.ok {
      ForceKept(t, f.state, i);
      var r := ForceRebalance(f.state, i);
      KeptMeans(t, f.state, r);
      SettleKept(t, r, i);
      KeptTrans(t, f.state, r, Settle(r, i));
      KeptTrans(t, s, f.state, Settle(r, i));
    }
  }

  // ---- what a refusal does to the slots of a CPU

  /** A successful fallback takes the interrupt away and leaves the CPU that refused saturated. */
  lemma {:induction false} FallbackClamps(t: Topo, s: State, i: IrqId, original: ObjId, scope: ObjId, m: set<nat>, attempts: nat, k: Kernel)
    requires Basic(t, s) && AtHome(s, i, original) && scope in t.at && original in t.at && HomeKnown(s, i) && t.at[original].kind == Cpu
    ensures
      var f := FallbackLoop(t, s, i, original, scope, m, attempts, k);
      f.ok ==> original in f.state.obj && f.state.obj[original].slots == SLOTS_SATURATED && i in f.state.irq && f.state.irq[i].home != Some(original)
    decreases MAX_FALLBACK_ATTEMPTS - attempts
  {
    hide Kept, FindUnder, Owned, Shaped, MigrateObj, Reply, Desc, BestOf;
    var f := FindUnder(t, s, scope, original, m);
    if attempts < MAX_FALLBACK_ATTEMPTS && f.Some? {
      var c := f.value;
      FindIsFree(t, s, scope, original, m);
      FindUnderIsBest(t, s, scope, original, m);
      BestIsCpu(t, s, Desc(t, scope), original, m, c);
      var s1 := Log(s, i, c);
      LogKept(t, s, Write(i, c));
      KeptMeans(t, s, s1);
      if Reply(k, attempts) == Done {
        FallbackDone(t, s1, i, original, c);
      } else {
        var s2 := if Reply(k, attempts) == NoSpace then Saturate(s1, c) else s1;
        if Reply(k, attempts) == NoSpace { SaturateKept(t, s1, c); KeptMeans(t, s1, s2); }
        FallbackClamps(t, s2, i, original, scope, m + t.at[c].mask, attempts + 1, k);
      }
    }
  }

  /**
   After ENOSPC on a CPU: if another CPU takes the interrupt the refusing one ends with no slot; if none does,
   the interrupt waits again and force_rebalance_irq has lifted the saturated CPU to exactly one slot.
   */
  lemma RefusedSlots(t: Topo, s: State, i: IrqId, k: Kernel)
    requires Basic(t, s) && Linked(s) && i in s.irq && s.irq[i].home.Some? && s.irq[i].level != NoBalance
    requires s.irq[i].home.value in t.at && t.at[s.irq[i].home.value].kind == Cpu && HomeKnown(s, i)
    ensures
      var home := s.irq[i].home.value;
      var s1 := Saturate(s, home);
      var r := Refuse(t, s, i, k);
      && HomeKnown(s1, i) && home in r.obj && i in r.irq
      && if TryFallback(t, s1, i, k).ok then r.obj[home].slots == SLOTS_SATURATED && r.irq[i].home != Some(home)
         else r.obj[home].slots == SLOTS_SATURATED + 1 && r.irq[i].home == None && i in r.rebalance
  {
    hide Kept, Owned, Shaped, FallbackLoop, TryFallback, ForceRebalance, Linked;
    var home := s.irq[i].home.value;
    var s1 := Saturate(s, home);
    SaturateKept(t, s, home);
    KeptMeans(t, s, s1);
    OwnedLinked(s1);
    LinkedKnows(s1, i);
    TryMoves(t, s1, i, k);
    var f := TryFallback(t, s1, i, k);
    if !f.ok {
      TryFallbackMeets(t, s1, i, k);
      ForcedSlots(t, f.state, i, home);
    }
  }

  /** try_fallback_cpu from a CPU: on success the interrupt has left it and it is saturated. */
  lemma TryMoves(t: Topo, s: State, i: IrqId, k: Kernel)
    requires Basic(t, s) && HomeKnown(s, i) && s.irq[i].home.Some? && s.irq[i].level != NoBalance
    requires s.irq[i].home.value in t.at && t.at[s.irq[i].home.value].kind == Cpu
    ensures
      var f := TryFallback(t, s, i, k);
      var home := s.irq[i].home.value;
      && Basic(t, f.state) && home in f.state.obj && i in f.state.irq && HomeKnown(f.state, i)
      && (f.ok ==> f.state.obj[home].slots == SLOTS_SATURATED && f.state.irq[i].home != Some(home))
      && (!f.ok ==> f.state.irq == s.irq)
  {
    hide Kept, Owned, Shaped, FallbackLoop, Linked, Ancestor;
    var home := s.irq[i].home.value;
    var scope := SearchScope(t, home, s.irq[i].level);
    KeptRefl(t, s);
    if s.irq[i].level != CoreLevel && scope.Some? {
      FallbackKept(t, s, i, home, scope.value, {}, 0, k);
      FallbackClamps(t, s, i, home, scope.value, {}, 0, k);
    }
    var f := TryFallback(t, s, i, k);
    KeptMeans(t, s, f.state);
    OwnedLinked(f.state);
    LinkedKnows(f.state, i);
  }

  /** force_rebalance_irq gives the old home one slot back, unless it has no limit. */
  lemma ForcedSlots(t: Topo, s: State, i: IrqId, home: ObjId)
    requires Basic(t, s) && HomeKnown(s, i) && s.irq[i].home == Some(home) && s.irq[i].level != NoBalance && home in s.obj
    ensures
      var r := ForceRebalance(s, i);
      && home in r.obj && r.obj[home].slots == (if s.obj[home].slots == INT_MAX then INT_MAX else s.obj[home].slots + 1)
      && i in r.irq && r.irq[i].home == None && i in r.rebalance
  {
    hide Owned, Shaped, MigrateObj, Movable, Drop;
    InDb(s, i);
    OwnedMovable(s, i);
    MovableMeans(s, i);
    MigrateFound(s, Some(home), None, i);
    MigrateListAt(s, Some(home), None, i, None);
    LeftSlots(s, home, i);
  }

  lemma LeftSlots(s: State, home: ObjId, i: IrqId)
    requires HomeKnown(s, i) && s.irq[i].home == Some(home) && i in s.obj[home].irqs
    ensures
      var r := MigrateObj(s, Some(home), None, i);
      home in r.obj && r.obj[home].slots == if s.obj[home].slots == INT_MAX then INT_MAX else s.obj[home].slots + 1
  {
    hide Drop;
  }

  /** activate_mappings: the first n interrupts of the database in order, each with the kernel's answers for it. */
  function ActivateAll(t: Topo, s: State, n: nat, ks: map<IrqId, Kernel>): (r: State)
    requires Shaped(t) && s.obj.Keys == t.at.Keys && Linked(s) && n <= |s.db|
    ensures SameFrame(s, r)
    decreases n
  {
    if n == 0 then s
    else ActivateMapping(t, ActivateAll(t, s, n - 1, ks), s.db[n - 1], AnswersFor(ks, s.db[n - 1]))
  }

  function AnswersFor(ks: map<IrqId, Kernel>, i: IrqId): Kernel {
    if i in ks then ks[i] else Kernel(true, Done, [])
  }

  lemma {:induction false} ActivateAllKept(t: Topo, s: State, n: nat, ks: map<IrqId, Kernel>)
    requires Basic(t, s) && Linked(s) && n <= |s.db|
    ensures Kept(t, s, ActivateAll(t, s, n, ks))
    decreases n
  {
    hide Kept, ActivateMapping, Owned, Shaped;
    if n == 0 {
      KeptRefl(t, s);
    } else {
      ActivateAllKept(t, s, n - 1, ks);
      var r := ActivateAll(t, s, n - 1, ks);
      var i := s.db[n - 1];
      KeptMeans(t, s, r);
      ActivateKept(t, r, i, AnswersFor(ks, i));
      KeptTrans(t, s, r, ActivateMapping(t, r, i, AnswersFor(ks, i)));
    }
  }
}
