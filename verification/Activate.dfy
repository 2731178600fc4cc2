/** Writing affinities: activate_mapping and the search for another CPU after ENOSPC (activate.c). */
module Activate {
  import opened Topology
  import opened Irqs

  const MAX_FALLBACK_ATTEMPTS := 8
  const SLOTS_SATURATED := 0

  // ---- the search

  /** is_valid_fallback */
  predicate ValidFallback(t: Topo, s: State, c: ObjId, original: ObjId, tried: set<nat>)
    requires c in t.at && c in s.obj
  {
    && c != original && t.at[c].kind == Cpu
    && s.obj[c].slots > SLOTS_SATURATED
    && Usable(t, c)
    && t.at[c].mask * tried == {}
  }

  /** find_best_cpu_under_obj */
  function FindUnder(t: Topo, s: State, o: ObjId, original: ObjId, tried: set<nat>): (r: Option<ObjId>)
    requires Shaped(t) && s.obj.Keys == t.at.Keys && o in t.at
    ensures r.Some? ==> r.value in t.at
    decreases Rank(t.at[o].kind), |t.at[o].children| + 1
  {
    if t.at[o].kind == Cpu then
      if ValidFallback(t, s, o, original, tried) then Some(o) else None
    else FindAmong(t, s, o, |t.at[o].children|, original, tried)
  }

  /** The loop over the first n children of o: the candidate with most slots, the first one on a tie. */
  function FindAmong(t: Topo, s: State, o: ObjId, n: nat, original: ObjId, tried: set<nat>): (r: Option<ObjId>)
    requires Shaped(t) && s.obj.Keys == t.at.Keys && o in t.at && n <= |t.at[o].children|
    ensures r.Some? ==> r.value in t.at
    decreases Rank(t.at[o].kind), n
  {
    if n == 0 then None
    else
      var best := FindAmong(t, s, o, n - 1, original, tried);
      var child := t.at[o].children[n - 1];
      var candidate := FindUnder(t, s, child, original, tried);
      if candidate.Some? && (best.None? || s.obj[candidate.value].slots > s.obj[best.value].slots)
      then candidate else best
  }

  /** A valid candidate among the objects. */
  ghost predicate Candidate(t: Topo, s: State, x: ObjId, original: ObjId, tried: set<nat>) {
    x in t.at && x in s.obj && ValidFallback(t, s, x, original, tried)
  }

  ghost function Slots(s: State, x: ObjId): int { if x in s.obj then s.obj[x].slots else 0 }

  /** r is a best candidate of the set `under`, or there is none. */
  ghost predicate BestOf(t: Topo, s: State, under: set<ObjId>, original: ObjId, tried: set<nat>, r: Option<ObjId>) {
    && (r.Some? ==> r.value in under && Candidate(t, s, r.value, original, tried))
    && (forall x :: x in under && Candidate(t, s, x, original, tried) ==> r.Some? && Slots(s, x) <= Slots(s, r.value))
  }

  /** Everything under the first n children of o. */
  ghost function DescOf(t: Topo, o: ObjId, n: nat): set<ObjId>
    requires Shaped(t) && o in t.at && n <= |t.at[o].children|
  {
    if n == 0 then {}
    else
      ChildOf(t, o, n - 1);
      DescOf(t, o, n - 1) + Desc(t, t.at[o].children[n - 1])
  }

  lemma {:induction false} DescOfHas(t: Topo, o: ObjId, n: nat, k: nat)
    requires Shaped(t) && o in t.at && k < n <= |t.at[o].children|
    ensures t.at[o].children[k] in t.at && Desc(t, t.at[o].children[k]) <= DescOf(t, o, n)
    ensures DescOf(t, o, n) <= Desc(t, o)
    decreases n
  {
    hide Shaped;
    ChildOf(t, o, k);
    ChildOf(t, o, n - 1);
    assert t.at[o].children[n - 1] in t.at[o].children;
    if n > 1 { DescOfHas(t, o, n - 1, if k < n - 1 then k else 0); }
  }

  lemma DescSplit(t: Topo, o: ObjId)
    requires Shaped(t) && o in t.at
    ensures Desc(t, o) == {o} + DescOf(t, o, |t.at[o].children|)
  {
    hide DescOf, OnList;
    var cs := t.at[o].children;
    forall x | x in Desc(t, o) && x != o
      ensures x in DescOf(t, o, |cs|)
    {
      var c :| c in cs && x in Desc(t, c);
      var k :| 0 <= k < |cs| && cs[k] == c;
      DescOfHas(t, o, |cs|, k);
    }
    if |cs| > 0 { DescOfHas(t, o, |cs|, 0); } else { DescOfNone(t, o); }
  }

  /** The search finds a valid CPU with the most slots, or there is no valid CPU. */
  lemma {:induction false} FindUnderIsBest(t: Topo, s: State, o: ObjId, original: ObjId, tried: set<nat>)
    requires Shaped(t) && s.obj.Keys == t.at.Keys && o in t.at
    ensures BestOf(t, s, Desc(t, o), original, tried, FindUnder(t, s, o, original, tried))
    decreases Rank(t.at[o].kind), |t.at[o].children| + 1
  {
    hide Usable, Desc, Shaped, DescOf;
    DescSplit(t, o);
    if t.at[o].kind == Cpu {
      if |t.at[o].children| > 0 {
        ChildOf(t, o, 0);
      } else {
        DescOfNone(t, o);
      }
    } else {
      FindAmongIsBest(t, s, o, |t.at[o].children|, original, tried);
    }
  }

  lemma DescOfNone(t: Topo, o: ObjId)
    requires Shaped(t) && o in t.at
    ensures DescOf(t, o, 0) == {}
  {
  }

  lemma {:induction false} FindAmongIsBest(t: Topo, s: State, o: ObjId, n: nat, original: ObjId, tried: set<nat>)
    requires Shaped(t) && s.obj.Keys == t.at.Keys && o in t.at && n <= |t.at[o].children|
    ensures BestOf(t, s, DescOf(t, o, n), original, tried, FindAmong(t, s, o, n, original, tried))
    decreases Rank(t.at[o].kind), n
  {
    hide Usable, Desc, Shaped, ValidFallback, FindUnder;
    if n > 0 {
      FindAmongIsBest(t, s, o, n - 1, original, tried);
      ChildOf(t, o, n - 1);
      FindUnderIsBest(t, s, t.at[o].children[n - 1], original, tried);
    }
  }

  // ---- trying CPUs one after the other

  /** The kernel's answer to one write. */
  datatype Answer = Done | NoSpace | Transient | Permanent

  /** All answers one activation can get: is the affinity set already, the first write, later writes. */
  datatype Kernel = Kernel(already: bool, first: Answer, later: seq<Answer>)

  function Reply(k: Kernel, n: nat): Answer {
    if n < |k.later| then k.later[n] else Transient
  }

  function Log(s: State, i: IrqId, o: ObjId): State { s.(writes := s.writes + [Write(i, o)]) }

  function Saturate(s: State, o: ObjId): State
    requires o in s.obj
  {
    WithObj(s, o, s.obj[o].(slots := SLOTS_SATURATED))
  }

  function Settle(s: State, i: IrqId): State
    requires i in s.irq
  {
    WithIrq(s, i, s.irq[i].(moved := false))
  }

  /** The write was accepted: the interrupt moves to c, and a CPU it leaves takes nothing more. */
  function TakeOver(t: Topo, s: State, i: IrqId, original: ObjId, c: ObjId): State
    requires HomeKnown(s, i) && original in s.obj && c in s.obj && original in t.at
  {
    var s2 := MigrateObj(s, Some(original), Some(c), i);
    var s3 := if t.at[original].kind == Cpu then Saturate(s2, original) else s2;
    Settle(s3, i)
  }

  datatype Fallback = Fallback(state: State, ok: bool, tried: seq<ObjId>)

  /** The retry loop of try_fallback_cpu, from attempt number `attempts` on. */
  function FallbackLoop(t: Topo, s: State, i: IrqId, original: ObjId, scope: ObjId, tried: set<nat>, attempts: nat, k: Kernel): Fallback
    requires Shaped(t) && s.obj.Keys == t.at.Keys && scope in t.at && original in t.at && HomeKnown(s, i)
    decreases MAX_FALLBACK_ATTEMPTS - attempts
  {
    if attempts >= MAX_FALLBACK_ATTEMPTS then Fallback(s, false, [])
    else match FindUnder(t, s, scope, original, tried)
      case None => Fallback(s, false, [])
      case Some(c) =>
        var s1 := Log(s, i, c);
        if Reply(k, attempts) == Done then
          Fallback(TakeOver(t, s1, i, original, c), true, [c])
        else
          var s2 := if Reply(k, attempts) == NoSpace then Saturate(s1, c) else s1;
          var rest := FallbackLoop(t, s2, i, original, scope, tried + t.at[c].mask, attempts + 1, k);
          rest.(tried := [c] + rest.tried)
  }

  /** The first object of kind k at or above o. */
  function Ancestor(t: Topo, o: Option<ObjId>, k: Kind): (r: Option<ObjId>)
    requires Shaped(t) && (o.Some? ==> o.value in t.at)
    ensures r.Some? ==> r.value in t.at && t.at[r.value].kind == k
    decreases if o.Some? then 4 - Rank(t.at[o.value].kind) else 0
  {
    if o.None? || t.at[o.value].kind == k then o else Ancestor(t, t.at[o.value].parent, k)
  }

  function SearchScope(t: Topo, original: ObjId, level: Level): (r: Option<ObjId>)
    requires Shaped(t) && original in t.at
    ensures r.Some? ==> r.value in t.at
  {
    if t.at[original].kind == Cpu then
      match level
      case CacheLevel => Ancestor(t, t.at[original].parent, Cache)
      case PackageLevel => Ancestor(t, t.at[original].parent, Package)
      case _ => None
    else Some(original)
  }

  /** try_fallback_cpu */
  function TryFallback(t: Topo, s: State, i: IrqId, k: Kernel): Fallback
    requires Shaped(t) && s.obj.Keys == t.at.Keys && HomeKnown(s, i) && s.irq[i].home.Some?
  {
    var original := s.irq[i].home.value;
    if s.irq[i].level == CoreLevel || s.irq[i].level == NoBalance then Fallback(s, false, [])
    else match SearchScope(t, original, s.irq[i].level)
      case None => Fallback(s, false, [])
      case Some(scope) => FallbackLoop(t, s, i, original, scope, {}, 0, k)
  }

  // ---- what the retry loop does, seen from the state it starts in

  ghost function TriedMask(t: Topo, m: set<nat>, cs: seq<ObjId>): set<nat>
    requires forall c :: c in cs ==> c in t.at
    decreases |cs|
  {
    if |cs| == 0 then m else TriedMask(t, m + t.at[cs[0]].mask, cs[1..])
  }

  /** Each CPU tried is a best candidate among those not tried before it. */
  ghost predicate Greedy(t: Topo, s: State, scope: ObjId, original: ObjId, m: set<nat>, cs: seq<ObjId>)
    requires Shaped(t) && scope in t.at && forall c :: c in cs ==> c in t.at
    decreases |cs|
  {
    |cs| == 0 ||
    (BestOf(t, s, Desc(t, scope), original, m, Some(cs[0])) &&
     Greedy(t, s, scope, original, m + t.at[cs[0]].mask, cs[1..]))
  }

  ghost function WritesOf(i: IrqId, cs: seq<ObjId>): seq<Write> {
    if |cs| == 0 then [] else [Write(i, cs[0])] + WritesOf(i, cs[1..])
  }

  /** The kernel refused o for lack of vectors. */
  ghost predicate Refused(cs: seq<ObjId>, k: Kernel, attempts: nat, o: ObjId) {
    exists n :: 0 <= n < |cs| && cs[n] == o && Reply(k, attempts + n) == NoSpace
  }

  /** States that differ only in the slots of CPUs already tried offer the same candidates. */
  lemma SameCandidates(t: Topo, s: State, s': State, under: set<ObjId>, original: ObjId, tried: set<nat>, r: Option<ObjId>)
    requires s'.obj.Keys == s.obj.Keys
    requires forall x :: x in t.at && x in s.obj && t.at[x].mask * tried == {} ==> s'.obj[x].slots == s.obj[x].slots
    ensures BestOf(t, s', under, original, tried, r) <==> BestOf(t, s, under, original, tried, r)
  {
    hide Usable;
    assert forall x :: Candidate(t, s', x, original, tried) <==> Candidate(t, s, x, original, tried);
  }

  /** The greedy choice does not depend on slots of CPUs whose mask was tried before. */
  lemma {:induction false} SameGreedy(t: Topo, s: State, s': State, scope: ObjId, original: ObjId, m: set<nat>, cs: seq<ObjId>)
    requires Shaped(t) && scope in t.at && forall c :: c in cs ==> c in t.at
    requires s'.obj.Keys == s.obj.Keys
    requires forall x :: x in t.at && x in s.obj && t.at[x].mask * m == {} ==> s'.obj[x].slots == s.obj[x].slots
    requires Greedy(t, s', scope, original, m, cs)
    ensures Greedy(t, s, scope, original, m, cs)
    decreases |cs|
  {
    hide BestOf, Desc, Shaped;
    if |cs| > 0 {
      SameCandidates(t, s, s', Desc(t, scope), original, m, Some(cs[0]));
      SameGreedy(t, s, s', scope, original, m + t.at[cs[0]].mask, cs[1..]);
    }
  }

  /** Greedy choices never repeat a CPU, nor take one whose mask was tried before. */
  lemma {:induction false} GreedyDistinct(t: Topo, s: State, scope: ObjId, original: ObjId, m: set<nat>, cs: seq<ObjId>)
    requires Shaped(t) && scope in t.at && forall c :: c in cs ==> c in t.at
    requires Greedy(t, s, scope, original, m, cs)
    ensures NoDup(cs)
    ensures forall c :: c in cs ==> t.at[c].mask * m == {} && Candidate(t, s, c, original, m) && c in Desc(t, scope)
    decreases |cs|
  {
    hide Desc, Usable;
    if |cs| > 0 {
      var m' := m + t.at[cs[0]].mask;
      GreedyDistinct(t, s, scope, original, m', cs[1..]);
      assert t.at[cs[0]].mask != {};
      forall c | c in cs[1..]
        ensures t.at[c].mask * m == {} && c != cs[0] && Candidate(t, s, c, original, m)
      {
        assert t.at[c].mask * m' == {};
        assert t.at[c].mask * t.at[cs[0]].mask <= t.at[c].mask * m';
        assert t.at[c].mask * m <= t.at[c].mask * m';
      }
      assert forall c :: c in cs ==> c == cs[0] || c in cs[1..];
      forall a, b | 0 <= a < b < |cs|
        ensures cs[a] != cs[b]
      {
        if a == 0 { assert cs[b] in cs[1..]; } else { assert cs[1..][a - 1] != cs[1..][b - 1]; }
      }
    }
  }

  /** The state in which the next attempt starts. */
  ghost function NextTry(s: State, i: IrqId, c: ObjId, a: Answer): State
    requires c in s.obj
  {
    if a == NoSpace then Saturate(Log(s, i, c), c) else Log(s, i, c)
  }

  /** Which CPUs are tried. */
  lemma {:induction false} FallbackTrace(t: Topo, s: State, i: IrqId, original: ObjId, scope: ObjId, m: set<nat>, attempts: nat, k: Kernel)
    requires Shaped(t) && s.obj.Keys == t.at.Keys && scope in t.at && original in t.at && HomeKnown(s, i)
    requires attempts <= MAX_FALLBACK_ATTEMPTS
    ensures
      var r := FallbackLoop(t, s, i, original, scope, m, attempts, k);
      && (forall c :: c in r.tried ==> c in t.at)
      && Greedy(t, s, scope, original, m, r.tried)
      && (!r.ok && attempts + |r.tried| < MAX_FALLBACK_ATTEMPTS ==>
            BestOf(t, s, Desc(t, scope), original, TriedMask(t, m, r.tried), None))
    decreases MAX_FALLBACK_ATTEMPTS - attempts
  {
    hide Desc, Shaped, BestOf, FallbackLoop, FindUnder, NoDup, Reply, Usable;
    LoopStep(t, s, i, original, scope, m, attempts, k);
    var r := FallbackLoop(t, s, i, original, scope, m, attempts, k);
    if attempts < MAX_FALLBACK_ATTEMPTS {
      FindUnderIsBest(t, s, scope, original, m);
      var f := FindUnder(t, s, scope, original, m);
      if f.Some? {
        var c := f.value;
        var m' := m + t.at[c].mask;
        BestIsCpu(t, s, Desc(t, scope), original, m, c);
        if Reply(k, attempts) == Done {
          assert r.tried == [c];
          assert Greedy(t, s, scope, original, m', []);
        } else {
          var s' := NextTry(s, i, c, Reply(k, attempts));
          FallbackTrace(t, s', i, original, scope, m', attempts + 1, k);
          var rest := FallbackLoop(t, s', i, original, scope, m', attempts + 1, k);
          assert r.tried == [c] + rest.tried && r.tried[1..] == rest.tried;
          TrySlots(t, s, i, c, Reply(k, attempts), m);
          SameGreedy(t, s, s', scope, original, m', rest.tried);
          MaskGrows(t, m', rest.tried);
          SameCandidates(t, s, s', Desc(t, scope), original, TriedMask(t, m', rest.tried), None);
        }
      }
    }
  }

  /** What is written and how the kernel answered. */
  lemma {:induction false} FallbackWrites(t: Topo, s: State, i: IrqId, original: ObjId, scope: ObjId, m: set<nat>, attempts: nat, k: Kernel)
    requires Shaped(t) && s.obj.Keys == t.at.Keys && scope in t.at && original in t.at && HomeKnown(s, i)
    requires attempts <= MAX_FALLBACK_ATTEMPTS
    ensures
      var r := FallbackLoop(t, s, i, original, scope, m, attempts, k);
      && attempts + |r.tried| <= MAX_FALLBACK_ATTEMPTS
      && r.state.writes == s.writes + WritesOf(i, r.tried)
      && (r.ok ==> |r.tried| >= 1 && Reply(k, attempts + |r.tried| - 1) == Done)
      && (forall n :: attempts <= n < attempts + |r.tried| - (if r.ok then 1 else 0) ==> Reply(k, n) != Done)
    decreases MAX_FALLBACK_ATTEMPTS - attempts
  {
    hide Desc, Shaped, FindUnder, Reply, FallbackLoop;
    LoopStep(t, s, i, original, scope, m, attempts, k);
    var r := FallbackLoop(t, s, i, original, scope, m, attempts, k);
    if r.tried != [] {
      var c := r.tried[0];
      var w := [Write(i, c)];
      assert WritesOf(i, r.tried) == w + WritesOf(i, r.tried[1..]);
      if Reply(k, attempts) != Done {
        var s' := NextTry(s, i, c, Reply(k, attempts));
        var m' := m + t.at[c].mask;
        FallbackWrites(t, s', i, original, scope, m', attempts + 1, k);
        assert s'.writes + WritesOf(i, r.tried[1..]) == s.writes + (w + WritesOf(i, r.tried[1..]));
      }
    }
  }

  /** One round of the loop. */
  lemma LoopStep(t: Topo, s: State, i: IrqId, original: ObjId, scope: ObjId, m: set<nat>, attempts: nat, k: Kernel)
    requires Shaped(t) && s.obj.Keys == t.at.Keys && scope in t.at && original in t.at && HomeKnown(s, i)
    ensures
      var r := FallbackLoop(t, s, i, original, scope, m, attempts, k);
      if attempts >= MAX_FALLBACK_ATTEMPTS || FindUnder(t, s, scope, original, m).None? then r == Fallback(s, false, [])
      else
        && r.tried != [] && r.tried[0] in t.at && Some(r.tried[0]) == FindUnder(t, s, scope, original, m)
        && if Reply(k, attempts) == Done
           then r.ok && r.tried == [r.tried[0]] && r.state.writes == s.writes + [Write(i, r.tried[0])]
           else var rest := FallbackLoop(t, NextTry(s, i, r.tried[0], Reply(k, attempts)), i, original, scope,
                                         m + t.at[r.tried[0]].mask, attempts + 1, k);
                r.tried[1..] == rest.tried && r.ok == rest.ok && r.state == rest.state
  {
    hide Desc, Shaped, FindUnder, Reply, MigrateObj;
    if FindUnder(t, s, scope, original, m).Some? {
      MigrateKeepsWrites(Log(s, i, FindUnder(t, s, scope, original, m).value), Some(original),
                         FindUnder(t, s, scope, original, m), i);
    }
  }

  lemma BestIsCpu(t: Topo, s: State, under: set<ObjId>, original: ObjId, m: set<nat>, c: ObjId)
    requires BestOf(t, s, under, original, m, Some(c))
    ensures c in under && c in t.at && c in s.obj && t.at[c].kind == Cpu && c != original
    ensures s.obj[c].slots > 0 && Usable(t, c)
  {
  }

  ghost predicate SlotsAgree(t: Topo, s: State, s': State, m: set<nat>) {
    s'.obj.Keys == s.obj.Keys &&
    forall x :: x in t.at && x in s.obj && t.at[x].mask * m == {} ==> s'.obj[x].slots == s.obj[x].slots
  }

  lemma TrySlots(t: Topo, s: State, i: IrqId, c: ObjId, a: Answer, m: set<nat>)
    requires Shaped(t) && c in t.at && c in s.obj && t.at[c].kind == Cpu
    ensures SlotsAgree(t, s, NextTry(s, i, c, a), m + t.at[c].mask)
  {
    assert t.at[c].mask * (m + t.at[c].mask) == t.at[c].mask != {};
  }

  lemma {:induction false} MaskGrows(t: Topo, m: set<nat>, cs: seq<ObjId>)
    requires forall c :: c in cs ==> c in t.at
    ensures m <= TriedMask(t, m, cs)
    decreases |cs|
  {
    if |cs| > 0 { MaskGrows(t, m + t.at[cs[0]].mask, cs[1..]); }
  }

  lemma MigrateKeepsWrites(s: State, from: Option<ObjId>, to: Option<ObjId>, i: IrqId)
    requires HomeKnown(s, i) && (from.Some? ==> from.value in s.obj) && (to.Some? ==> to.value in s.obj)
    ensures MigrateObj(s, from, to, i).writes == s.writes
  {
  }

  /** A failed search leaves lists and records alone; only CPUs refused with ENOSPC lose their slots. */
  lemma {:induction false} FallbackFailure(t: Topo, s: State, i: IrqId, original: ObjId, scope: ObjId, m: set<nat>, attempts: nat, k: Kernel)
    requires Shaped(t) && s.obj.Keys == t.at.Keys && scope in t.at && original in t.at && HomeKnown(s, i)
    requires attempts <= MAX_FALLBACK_ATTEMPTS
    ensures
      var r := FallbackLoop(t, s, i, original, scope, m, attempts, k);
      !r.ok ==>
        && r.state.irq == s.irq && r.state.db == s.db && r.state.banned == s.banned
        && r.state.rebalance == s.rebalance && r.state.obj.Keys == s.obj.Keys
        && forall o :: o in s.obj ==>
             r.state.obj[o] == if Refused(r.tried, k, attempts, o) then s.obj[o].(slots := SLOTS_SATURATED) else s.obj[o]
    decreases MAX_FALLBACK_ATTEMPTS - attempts
  {
    hide Desc, Shaped, BestOf, MigrateObj, FindUnder, NoDup, Reply;
    var r := FallbackLoop(t, s, i, original, scope, m, attempts, k);
    if attempts < MAX_FALLBACK_ATTEMPTS && FindUnder(t, s, scope, original, m).Some? && Reply(k, attempts) != Done {
      var c := FindUnder(t, s, scope, original, m).value;
      var s' := NextTry(s, i, c, Reply(k, attempts));
      var m' := m + t.at[c].mask;
      FallbackFailure(t, s', i, original, scope, m', attempts + 1, k);
      var rest := FallbackLoop(t, s', i, original, scope, m', attempts + 1, k);
      assert r.tried == [c] + rest.tried;
      forall o
        ensures Refused(r.tried, k, attempts, o)
           <==> (o == c && Reply(k, attempts) == NoSpace) || Refused(rest.tried, k, attempts + 1, o)
      {
        RefusedCons(c, rest.tried, k, attempts, o);
      }
    }
  }

  lemma RefusedCons(c: ObjId, cs: seq<ObjId>, k: Kernel, attempts: nat, o: ObjId)
    ensures Refused([c] + cs, k, attempts, o)
       <==> (o == c && Reply(k, attempts) == NoSpace) || Refused(cs, k, attempts + 1, o)
  {
    hide Reply;
    var all := [c] + cs;
    if Refused(cs, k, attempts + 1, o) {
      var n :| 0 <= n < |cs| && cs[n] == o && Reply(k, attempts + 1 + n) == NoSpace;
      assert all[n + 1] == o && attempts + (n + 1) == attempts + 1 + n;
    }
    if o == c && Reply(k, attempts) == NoSpace {
      assert all[0] == o && attempts + 0 == attempts;
    }
    if Refused(all, k, attempts, o) {
      var n :| 0 <= n < |all| && all[n] == o && Reply(k, attempts + n) == NoSpace;
      if n > 0 { assert cs[n - 1] == o && attempts + 1 + (n - 1) == attempts + n; }
    }
  }

  /** try_fallback_cpu, whole: at most 8 writes, distinct CPUs, greedy order, exhaustive, and harmless on failure. */
  lemma TryFallbackMeets(t: Topo, s: State, i: IrqId, k: Kernel)
    requires Shaped(t) && s.obj.Keys == t.at.Keys && HomeKnown(s, i) && s.irq[i].home.Some?
    ensures
      var r := TryFallback(t, s, i, k);
      var original, level := s.irq[i].home.value, s.irq[i].level;
      var scope := SearchScope(t, original, level);
      && |r.tried| <= 8 && NoDup(r.tried)
      && r.state.writes == s.writes + WritesOf(i, r.tried)
      && (level == NoBalance || level == CoreLevel || scope.None? ==> r.tried == [] && !r.ok)
      && (r.tried != [] || r.ok ==>
            scope.Some? && (forall c :: c in r.tried ==> c in t.at) && Greedy(t, s, scope.value, original, {}, r.tried))
      && (!r.ok ==>
            && r.state.irq == s.irq && r.state.db == s.db && r.state.banned == s.banned && r.state.rebalance == s.rebalance
            && r.state.obj.Keys == s.obj.Keys
            && forall o :: o in s.obj ==>
                 r.state.obj[o] == if Refused(r.tried, k, 0, o) then s.obj[o].(slots := 0) else s.obj[o])
      && (!r.ok && |r.tried| < 8 && scope.Some? && level != NoBalance && level != CoreLevel ==>
            (forall c :: c in r.tried ==> c in t.at) &&
            BestOf(t, s, Desc(t, scope.value), original, TriedMask(t, {}, r.tried), None))
  {
    hide Desc, BestOf, FallbackLoop, Greedy, NoDup, Ancestor, Shaped, Refused, TriedMask, Candidate;
    var original := s.irq[i].home.value;
    NoDupNil();
    assert s.writes + WritesOf(i, []) == s.writes;
    if s.irq[i].level == PackageLevel || s.irq[i].level == CacheLevel {
      match SearchScope(t, original, s.irq[i].level)
      case None =>
      case Some(scope) =>
        FallbackTrace(t, s, i, original, scope, {}, 0, k);
        FallbackWrites(t, s, i, original, scope, {}, 0, k);
        FallbackFailure(t, s, i, original, scope, {}, 0, k);
        GreedyDistinct(t, s, scope, original, {}, FallbackLoop(t, s, i, original, scope, {}, 0, k).tried);
    }
    NothingRefused(k);
  }

  lemma NothingRefused(k: Kernel)
    ensures forall o :: !Refused([], k, 0, o)
  {
  }

  lemma {:induction false} FrameFallback(t: Topo, s: State, i: IrqId, original: ObjId, scope: ObjId, m: set<nat>, attempts: nat, k: Kernel)
    requires Shaped(t) && s.obj.Keys == t.at.Keys && scope in t.at && original in t.at && HomeKnown(s, i) && Linked(s)
    ensures SameFrame(s, FallbackLoop(t, s, i, original, scope, m, attempts, k).state)
    decreases MAX_FALLBACK_ATTEMPTS - attempts
  {
    hide Shaped, FindUnder, MigrateObj, Reply, Linked;
    var f := FindUnder(t, s, scope, original, m);
    if attempts < MAX_FALLBACK_ATTEMPTS && f.Some? {
      var c := f.value;
      var s1 := Log(s, i, c);
      FrameLog(s, i, c);
      if Reply(k, attempts) == Done {
        FrameMigrate(s1, Some(original), f, i);
        var s2 := MigrateObj(s1, Some(original), f, i);
        FrameObj(s2, original, s2.obj[original].(slots := SLOTS_SATURATED));
        var s3 := if t.at[original].kind == Cpu then Saturate(s2, original) else s2;
        assert HomeKnown(s3, i) by { LinkedKnows(s3, i); }
        FrameIrq(s3, i, s3.irq[i].(moved := false));
      } else {
        FrameObj(s1, c, s1.obj[c].(slots := SLOTS_SATURATED));
        var s2 := if Reply(k, attempts) == NoSpace then Saturate(s1, c) else s1;
        assert HomeKnown(s2, i) by { LinkedKnows(s2, i); }
        FrameFallback(t, s2, i, original, scope, m + t.at[c].mask, attempts + 1, k);
      }
    }
  }

  lemma FrameLog(s: State, i: IrqId, c: ObjId)
    requires Linked(s)
    ensures SameFrame(s, Log(s, i, c))
  {
    forall x | x in s.irq ensures HomeKnown(Log(s, i, c), x) { assert HomeKnown(s, x); }
  }

  lemma FrameTry(t: Topo, s: State, i: IrqId, k: Kernel)
    requires Shaped(t) && s.obj.Keys == t.at.Keys && HomeKnown(s, i) && s.irq[i].home.Some? && Linked(s)
    ensures SameFrame(s, TryFallback(t, s, i, k).state)
  {
    hide Shaped, FallbackLoop, Linked;
    var original := s.irq[i].home.value;
    var scope := SearchScope(t, original, s.irq[i].level);
    if scope.Some? { FrameFallback(t, s, i, original, scope.value, {}, 0, k); }
  }
}
