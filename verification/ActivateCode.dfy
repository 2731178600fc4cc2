/** activate.c as methods: the retry loop with its temporary assignment, and the walk over the database. */
module ActivateCode {
  import opened Topology
  import opened Irqs
  import opened Invariant
  import opened Activate
  import opened Activation
  import opened Placement
  import opened Balancer

  /** The loop that climbs to the first object of kind k. */
  method ScopeAbove(t: Topo, from: Option<ObjId>, k: Kind) returns (scope: Option<ObjId>)
    requires Shaped(t) && (from.Some? ==> from.value in t.at)
    ensures scope == Ancestor(t, from, k)
  {
    scope := from;
    while scope.Some? && t.at[scope.value].kind != k
      invariant scope.Some? ==> scope.value in t.at
      invariant Ancestor(t, scope, k) == Ancestor(t, from, k)
      decreases if scope.Some? then 4 - Rank(t.at[scope.value].kind) else 0
    {
      scope := t.at[scope.value].parent;
    }
  }

  /** Changing assigned_obj alone. */
  function Assigned(s: State, i: IrqId, h: Option<ObjId>): State
    requires i in s.irq
  {
    WithIrq(s, i, s.irq[i].(home := h))
  }

  lemma MoveAfterAssign(s: State, from: ObjId, to: ObjId, i: IrqId, h: Option<ObjId>)
    requires i in s.irq && from in s.obj && to in s.obj
    ensures MigrateIrq(Assigned(s, i, h), Some(from), Some(to), i) == Assigned(MigrateIrq(s, Some(from), Some(to), i), i, h)
  {
    hide Drop;
  }

  lemma CountAfterAssign(s: State, from: ObjId, to: ObjId, i: IrqId, h: Option<ObjId>, load: nat)
    requires i in s.irq && from in s.obj && to in s.obj
    ensures Arrive(Leave(Assigned(s, i, h), Some(from)), Some(to), load) == Assigned(Arrive(Leave(s, Some(from)), Some(to), load), i, h)
  {
  }

  /** migrate_irq_obj from `original` does not look at an assigned_obj that was changed in between. */
  lemma MigrateAfterAssign(s: State, original: ObjId, c: ObjId, i: IrqId)
    requires i in s.irq && s.irq[i].moved && s.irq[i].home == Some(original) && original in s.obj && c in s.obj
    ensures MigrateObj(Assigned(s, i, Some(c)), Some(original), Some(c), i) == MigrateObj(s, Some(original), Some(c), i)
  {
    hide MigrateIrq, Leave, Arrive;
    MoveAfterAssign(s, original, c, i, Some(c));
    var r := MigrateIrq(s, Some(original), Some(c), i);
    StillMoved(s, original, c, i);
    CountAfterAssign(r, original, c, i, Some(c), r.irq[i].load);
    var q := Arrive(Leave(r, Some(original)), Some(c), r.irq[i].load);
    assert Assigned(Assigned(q, i, Some(c)), i, Some(c)) == Assigned(q, i, Some(c));
  }

  lemma StillMoved(s: State, from: ObjId, to: ObjId, i: IrqId)
    requires i in s.irq && s.irq[i].moved && from in s.obj && to in s.obj
    ensures
      var r := MigrateIrq(s, Some(from), Some(to), i);
      && r.irq[i].moved && to in Leave(r, Some(from)).obj
      && Arrive(Leave(r, Some(from)), Some(to), r.irq[i].load).irq == r.irq
  {
    hide Drop;
  }

  /** find_best_cpu_under_obj */
  method FindBestCpuUnder(b: Balancer, o: ObjId, original: ObjId, tried: set<nat>) returns (best: Option<ObjId>)
    requires Shaped(b.t) && b.obj.Keys == b.t.at.Keys && o in b.t.at
    ensures best == FindUnder(b.t, b.Now(), o, original, tried)
    decreases Rank(b.t.at[o].kind)
  {
    hide Shaped, ValidFallback;
    if b.t.at[o].kind == Cpu { return if ValidFallback(b.t, b.Now(), o, original, tried) then Some(o) else None; }
    best := None;
    for n := 0 to |b.t.at[o].children|
      invariant best == FindAmong(b.t, b.Now(), o, n, original, tried)
    {
      ChildOf(b.t, o, n);
      var candidate := FindBestCpuUnder(b, b.t.at[o].children[n], original, tried);
      if candidate.Some? && (best.None? || b.obj[candidate.value].slots > b.obj[best.value].slots) { best := candidate; }
    }
  }

  /** try_fallback_cpu */
  method TryFallbackCpu(b: Balancer, i: IrqId, k: Kernel) returns (ok: bool)
    requires Shaped(b.t) && b.obj.Keys == b.t.at.Keys && HomeKnown(b.Now(), i) && b.irq[i].home.Some? && b.irq[i].moved
    modifies b`irq, b`rebalance, b`obj, b`writes
    ensures
      var f := TryFallback(b.t, old(b.Now()), i, k);
      b.Now() == f.state && ok == f.ok
  {
    hide MigrateObj, FindUnder, Shaped, Ancestor;
    var original := b.irq[i].home.value;
    var level := b.irq[i].level;
    if level == CoreLevel || level == NoBalance { return false; }
    var scope: Option<ObjId>;
    if b.t.at[original].kind == Cpu {
      ParentKnown(b.t, original);
      if level == CacheLevel {
        scope := ScopeAbove(b.t, b.t.at[original].parent, Cache);
      } else {
        scope := ScopeAbove(b.t, b.t.at[original].parent, Package);
      }
    } else {
      scope := Some(original);
    }
    if scope.None? { return false; }
    ok := RetryLoop(b, i, original, scope.value, k);
  }

  /** The round that succeeds. */
  lemma LoopDone(t: Topo, s: State, i: IrqId, original: ObjId, scope: ObjId, m: set<nat>, attempts: nat, k: Kernel, c: ObjId)
    requires Shaped(t) && s.obj.Keys == t.at.Keys && scope in t.at && original in t.at && HomeKnown(s, i)
    requires attempts < MAX_FALLBACK_ATTEMPTS && Reply(k, attempts) == Done && c in t.at
    requires FindUnder(t, s, scope, original, m) == Some(c)
    ensures
      var r := FallbackLoop(t, s, i, original, scope, m, attempts, k);
      r.ok && r.state == TakeOver(t, Log(s, i, c), i, original, c)
  {
    hide TakeOver, FindUnder, Shaped, Reply;
  }

  lemma MigrateKeys(s: State, from: Option<ObjId>, to: Option<ObjId>, i: IrqId)
    requires HomeKnown(s, i) && (from.Some? ==> from.value in s.obj) && (to.Some? ==> to.value in s.obj)
    ensures MigrateObj(s, from, to, i).obj.Keys == s.obj.Keys
  {
    hide Drop;
  }

  /** After a successful write: move the entry, keep a saturated CPU saturated, and mark the move as done. */
  method TakeFallback(b: Balancer, i: IrqId, original: ObjId, c: ObjId, ghost s: State)
    requires i in s.irq && s.irq[i].moved && s.irq[i].home == Some(original) && original in s.obj && c in s.obj
    requires original in b.t.at && b.Now() == Assigned(s, i, Some(c))
    modifies b`irq, b`rebalance, b`obj
    ensures b.Now() == TakeOver(b.t, s, i, original, c)
  {
    hide MigrateObj;
    MigrateAfterAssign(s, original, c, i);
    MigrateOthers(s, Some(original), Some(c), i);
    MigrateKeys(s, Some(original), Some(c), i);
    b.MigrateIrqObj(Some(original), Some(c), i);
    if b.t.at[original].kind == Cpu { b.obj := b.obj[original := b.obj[original].(slots := SLOTS_SATURATED)]; }
    b.irq := b.irq[i := b.irq[i].(moved := false)];
  }

  /** After a failed write: mark a CPU without vectors, and take the temporary assignment back. */
  method UndoFallback(b: Balancer, i: IrqId, original: ObjId, c: ObjId, answer: Answer, ghost s: State)
    requires i in s.irq && s.irq[i].home == Some(original) && c in s.obj && b.Now() == Assigned(Log(s, i, c), i, Some(c))
    modifies b`irq, b`obj
    ensures b.Now() == NextTry(s, i, c, answer)
  {
    if answer == NoSpace { b.obj := b.obj[c := b.obj[c].(slots := SLOTS_SATURATED)]; }
    b.irq := b.irq[i := b.irq[i].(home := Some(original))];
    assert b.irq == s.irq;
  }

  method RetryLoop(b: Balancer, i: IrqId, original: ObjId, scope: ObjId, k: Kernel) returns (ok: bool)
    requires Shaped(b.t) && b.obj.Keys == b.t.at.Keys && i in b.irq && b.irq[i].home == Some(original) && b.irq[i].moved
    requires original in b.t.at && scope in b.t.at
    modifies b`irq, b`rebalance, b`obj, b`writes
    ensures
      var f := FallbackLoop(b.t, old(b.Now()), i, original, scope, {}, 0, k);
      b.Now() == f.state && ok == f.ok
  {
    hide MigrateObj, FindUnder, Shaped, FallbackLoop, Reply, TakeOver, Settle;
    ghost var whole := FallbackLoop(b.t, b.Now(), i, original, scope, {}, 0, k);
    var tried: set<nat>, attempts := {}, 0;
    while attempts < MAX_FALLBACK_ATTEMPTS
      invariant attempts <= MAX_FALLBACK_ATTEMPTS && b.obj.Keys == b.t.at.Keys
      invariant i in b.irq && b.irq[i].home == Some(original) && b.irq[i].moved
      invariant
        var rest := FallbackLoop(b.t, b.Now(), i, original, scope, tried, attempts, k);
        whole.state == rest.state && whole.ok == rest.ok
    {
      ghost var s, m, n := b.Now(), tried, attempts;
      LoopStep(b.t, s, i, original, scope, m, n, k);
      var fallback := FindBestCpuUnder(b, scope, original, tried);
      if fallback.None? { return false; }
      var c := fallback.value;
      tried := tried + b.t.at[c].mask;
      var answer := Reply(k, attempts);
      attempts := attempts + 1;
      b.irq := b.irq[i := b.irq[i].(home := Some(c))];
      b.writes := b.writes + [Write(i, c)];
      if answer == Done {
        LoopDone(b.t, s, i, original, scope, m, n, k, c);
        TakeFallback(b, i, original, c, Log(s, i, c));
        return true;
      }
      UndoFallback(b, i, original, c, answer, s);
    }
    LoopStep(b.t, b.Now(), i, original, scope, tried, attempts, k);
    ok := false;
  }

  /** activate_mapping */
  method ActivateMappingNow(b: Balancer, i: IrqId, k: Kernel)
    requires Shaped(b.t) && b.obj.Keys == b.t.at.Keys && Linked(b.Now()) && i in b.irq
    modifies b`irq, b`rebalance, b`obj, b`writes
    ensures b.Now() == ActivateMapping(b.t, old(b.Now()), i, k)
  {
    hide Shaped, Linked, TryFallback, ForceRebalance;
    LinkedKnows(b.Now(), i);
    if !b.irq[i].moved || b.irq[i].home.None? { return; }
    if k.already {
      b.irq := b.irq[i := b.irq[i].(moved := false)];
      return;
    }
    var home := b.irq[i].home.value;
    FrameLog(b.Now(), i, home);
    b.writes := b.writes + [Write(i, home)];
    match k.first {
      case Done => b.irq := b.irq[i := b.irq[i].(moved := false)];
      case Transient =>
      case Permanent => b.irq := b.irq[i := b.irq[i].(level := NoBalance, moved := false)];
      case NoSpace =>
        FrameObj(b.Now(), home, b.obj[home].(slots := SLOTS_SATURATED));
        if b.t.at[home].kind == Cpu { b.obj := b.obj[home := b.obj[home].(slots := SLOTS_SATURATED)]; }
        LinkedKnows(b.Now(), i);
        FrameTry(b.t, b.Now(), i, k);
        var placed := TryFallbackCpu(b, i, k);
        if !placed {
          LinkedKnows(b.Now(), i);
          FrameForce(b.Now(), i);
          b.ForceRebalanceIrq(i);
          b.irq := b.irq[i := b.irq[i].(moved := false)];
        }
    }
  }

  /** activate_mappings */
  method ActivateMappings(b: Balancer, ks: map<IrqId, Kernel>)
    requires Basic(b.t, b.Now())
    modifies b`irq, b`rebalance, b`obj, b`writes
    ensures Linked(old(b.Now())) && b.Now() == ActivateAll(b.t, old(b.Now()), |old(b.db)|, ks)
    ensures Basic(b.t, b.Now())
  {
    hide Shaped, Linked, ActivateMapping, Owned, Kept;
    ghost var s := b.Now();
    OwnedLinked(s);
    for n := 0 to |b.db|
      invariant SameFrame(s, b.Now()) && b.Now() == ActivateAll(b.t, s, n, ks)
    {
      DbKnown(s, n);
      ActivateMappingNow(b, b.db[n], AnswersFor(ks, b.db[n]));
    }
    ActivateAllKept(b.t, s, |b.db|, ks);
    KeptMeans(b.t, s, b.Now());
  }
}
