/** Splitting interrupt counts over the CPUs: what floor division at every level can lose. */
module Shares {
  import opened Topology
  import opened Irqs
  import opened Load

  /** Children and parent links agree at and below root. */
  ghost predicate ParentsAgree(t: Topo, root: ObjId) {
    && Shaped(t) && root in t.at
    && forall o, c :: o in Desc(t, root) && o in t.at && c in t.at[o].children ==> c in t.at && t.at[c].parent == Some(o)
  }

  lemma AgreeBelow(t: Topo, d: ObjId, k: nat)
    requires ParentsAgree(t, d) && k < |t.at[d].children|
    ensures
      var c := t.at[d].children[k];
      c in t.at && t.at[c].parent == Some(d) && ParentsAgree(t, c)
  {
    hide Shaped;
    ChildOf(t, d, k);
    var c := t.at[d].children[k];
    assert c in t.at[d].children && d in Desc(t, d);
    hide Desc;
    forall o | o in Desc(t, c)
      ensures o in Desc(t, d)
    {
      DescDown(t, d, c, o);
    }
  }

  lemma DescDown(t: Topo, d: ObjId, c: ObjId, o: ObjId)
    requires Shaped(t) && d in t.at && c in t.at[d].children && c in t.at && o in Desc(t, c)
    ensures o in Desc(t, d)
  {
    hide Shaped;
  }

  /** Number of leaves below d. */
  ghost function Leaves(t: Topo, d: ObjId): (n: nat)
    requires Shaped(t) && d in t.at
    ensures n >= 1
    decreases Rank(t.at[d].kind), |t.at[d].children| + 1
  {
    if |t.at[d].children| == 0 then 1 else LeavesFirst(t, d, |t.at[d].children|)
  }

  ghost function LeavesFirst(t: Topo, d: ObjId, n: nat): (r: nat)
    requires Shaped(t) && d in t.at && n <= |t.at[d].children|
    ensures r >= n
    decreases Rank(t.at[d].kind), n
  {
    if n == 0 then 0
    else
      ChildOf(t, d, n - 1);
      LeavesFirst(t, d, n - 1) + Leaves(t, t.at[d].children[n - 1])
  }

  /** The shares of all leaves below d, added up. */
  ghost function ShareSum(t: Topo, s: State, d: ObjId): nat
    requires Shaped(t) && s.obj.Keys == t.at.Keys && d in t.at
    decreases Rank(t.at[d].kind), |t.at[d].children| + 1
  {
    if |t.at[d].children| == 0 then Share(t, s, d) else ShareSumFirst(t, s, d, |t.at[d].children|)
  }

  ghost function ShareSumFirst(t: Topo, s: State, d: ObjId, n: nat): nat
    requires Shaped(t) && s.obj.Keys == t.at.Keys && d in t.at && n <= |t.at[d].children|
    decreases Rank(t.at[d].kind), n
  {
    if n == 0 then 0
    else
      ChildOf(t, d, n - 1);
      ShareSumFirst(t, s, d, n - 1) + ShareSum(t, s, t.at[d].children[n - 1])
  }

  lemma FloorLoss(x: nat, m: nat)
    requires m > 0
    ensures x - (m - 1) <= m * (x / m) <= x
  {
  }

  /** A child inherits the floor of its parent's share over the number of children. */
  lemma ChildShare(t: Topo, s: State, d: ObjId, k: nat)
    requires ParentsAgree(t, d) && s.obj.Keys == t.at.Keys && d in t.at && k < |t.at[d].children|
    ensures
      var c := t.at[d].children[k];
      c in t.at && Share(t, s, c) == Share(t, s, d) / |t.at[d].children| + s.obj[c].irqCount
  {
    hide Shaped, Desc;
    AgreeBelow(t, d, k);
    ShareStep(t, s, t.at[d].children[k], d);
  }

  lemma ShareStep(t: Topo, s: State, c: ObjId, p: ObjId)
    requires Shaped(t) && s.obj.Keys == t.at.Keys && c in t.at && p in t.at && t.at[c].parent == Some(p) && |t.at[p].children| > 0
    ensures Share(t, s, c) == Share(t, s, p) / |t.at[p].children| + s.obj[c].irqCount
  {
    hide Shaped;
  }

  lemma {:induction false} ShareSumBounds(t: Topo, s: State, d: ObjId)
    requires ParentsAgree(t, d) && s.obj.Keys == t.at.Keys && d in t.at
    ensures
      var all := Share(t, s, d) + BelowCount(t, s, d, |t.at[d].children|);
      all - (Leaves(t, d) - 1) <= ShareSum(t, s, d) <= all
    decreases Rank(t.at[d].kind), |t.at[d].children| + 1
  {
    hide Shaped, Share;
    var m := |t.at[d].children|;
    if m > 0 {
      ShareSumFirstBounds(t, s, d, m);
      FloorLoss(Share(t, s, d), m);
    }
  }

  lemma {:induction false} ShareSumFirstBounds(t: Topo, s: State, d: ObjId, n: nat)
    requires ParentsAgree(t, d) && s.obj.Keys == t.at.Keys && d in t.at && 0 < |t.at[d].children| && n <= |t.at[d].children|
    ensures
      var all := n * (Share(t, s, d) / |t.at[d].children|) + BelowCount(t, s, d, n);
      all - (LeavesFirst(t, d, n) - n) <= ShareSumFirst(t, s, d, n) <= all
    decreases Rank(t.at[d].kind), n
  {
    hide *;
    FirstSteps(t, s, d, n);
    if n > 0 {
      var q := Share(t, s, d) / |t.at[d].children|;
      ChildShare(t, s, d, n - 1);
      AgreeBelow(t, d, n - 1);
      ShareSumFirstBounds(t, s, d, n - 1);
      ShareSumBounds(t, s, t.at[d].children[n - 1]);
      assert n * q == (n - 1) * q + q;
    }
  }

  /** One step of the sums over the first n children. */
  lemma FirstSteps(t: Topo, s: State, d: ObjId, n: nat)
    requires ParentsAgree(t, d) && s.obj.Keys == t.at.Keys && d in t.at && n <= |t.at[d].children|
    ensures Shaped(t)
    ensures n == 0 ==> BelowCount(t, s, d, n) == 0 && LeavesFirst(t, d, n) == 0 && ShareSumFirst(t, s, d, n) == 0
    ensures n > 0 ==> t.at[d].children[n - 1] in t.at
    ensures n > 0 ==> Rank(t.at[t.at[d].children[n - 1]].kind) < Rank(t.at[d].kind)
    ensures n > 0 ==>
      var c := t.at[d].children[n - 1];
      && BelowCount(t, s, d, n) == BelowCount(t, s, d, n - 1) + BelowCount(t, s, c, |t.at[c].children|) + s.obj[c].irqCount
      && LeavesFirst(t, d, n) == LeavesFirst(t, d, n - 1) + Leaves(t, c)
      && ShareSumFirst(t, s, d, n) == ShareSumFirst(t, s, d, n - 1) + ShareSum(t, s, c)
  {
    hide Shaped, Share;
    if n > 0 { ChildOf(t, d, n - 1); }
  }

  /**
   For a rooted tree with L leaves and T interrupts in all its objects, the shares that
   get_parent_branch_irq_count_share finds at the leaves add up to at most T and at least T - (L - 1).
   */
  lemma SharesOfRoot(t: Topo, s: State, root: ObjId)
    requires ParentsAgree(t, root) && s.obj.Keys == t.at.Keys && t.at[root].parent == None
    ensures
      var total := BranchCount(t, s, root);
      total - (Leaves(t, root) - 1) <= ShareSum(t, s, root) <= total
  {
    ShareSumBounds(t, s, root);
  }
}
