/**
 The daemon's global variables as an object, and the operations of irqlist.c, classify.c and
 irqbalance.c that move an interrupt between lists. Each method is proved equal to its function on
 the snapshot Now().
 */
module Balancer {
  import opened Topology
  import opened Irqs

  /** g_list_find_custom: the position of the first entry, or the length of the list. */
  method FindEntry(list: seq<nat>, i: nat) returns (k: nat)
    ensures k <= |list| && i !in list[..k] && (k < |list| ==> list[k] == i)
    ensures k < |list| <==> i in list
  {
    k := 0;
    while k < |list| && list[k] != i
      invariant k <= |list| && i !in list[..k]
    {
      k := k + 1;
    }
    assert list == list[..k] + list[k..];
  }

  /** Deleting the entry found is Drop. */
  lemma {:induction false} DropAt(l: seq<nat>, i: nat, k: nat)
    requires k < |l| && l[k] == i && i !in l[..k]
    ensures Drop(l, i) == l[..k] + l[k + 1..]
    decreases k
  {
    if k > 0 {
      assert l[0] == l[..k][0];
      assert l[1..][..k - 1] == l[..k][1..];
      DropAt(l[1..], i, k - 1);
      assert l[..k] + l[k + 1..] == [l[0]] + (l[1..][..k - 1] + l[1..][k..]);
    }
  }

  lemma {:induction false} DropAbsent(l: seq<nat>, i: nat)
    requires i !in l
    ensures Drop(l, i) == l
  {
    if |l| > 0 { DropAbsent(l[1..], i); }
  }

  /** g_list_delete_link on the entry of i, if there is one. */
  method DeleteEntry(list: seq<nat>, i: nat) returns (r: seq<nat>, found: bool)
    ensures r == Drop(list, i) && found == (i in list)
  {
    var k := FindEntry(list, i);
    found := k < |list|;
    if found {
      DropAt(list, i, k);
      r := list[..k] + list[k + 1..];
    } else {
      DropAbsent(list, i);
      r := list;
    }
  }

  class Balancer {
    var t: Topo
    var irq: map<IrqId, Irq>
    var db: seq<IrqId>
    var banned: seq<IrqId>
    var rebalance: seq<IrqId>
    var obj: map<ObjId, Obj>
    var writes: seq<Write>
    var cycle: nat
    var needRescan: bool

    function Now(): State
      reads this
    {
      State(irq, db, banned, rebalance, obj, writes)
    }

    constructor (t: Topo, s: State, cycle: nat, rescan: bool)
      ensures this.t == t && Now() == s && this.cycle == cycle && needRescan == rescan
    {
      this.t := t;
      irq, db, banned, rebalance, obj, writes := s.irq, s.db, s.banned, s.rebalance, s.obj, s.writes;
      this.cycle := cycle;
      needRescan := rescan;
    }

    function Entries(at: Option<ObjId>): seq<IrqId>
      reads this
      requires at.Some? ==> at.value in obj
    {
      if at.None? then rebalance else obj[at.value].irqs
    }

    method SetEntries(at: Option<ObjId>, l: seq<IrqId>)
      requires at.Some? ==> at.value in obj
      modifies this`rebalance, this`obj
      ensures Now() == WithList(old(Now()), at, l)
    {
      if at.None? { rebalance := l; } else { obj := obj[at.value := obj[at.value].(irqs := l)]; }
    }

    /** get_irq_info: is the number known? */
    method KnowsIrq(i: IrqId) returns (known: bool)
      ensures known <==> i in db || i in banned
    {
      var k := FindEntry(db, i);
      known := k < |db|;
      if !known {
        k := FindEntry(banned, i);
        known := k < |banned|;
      }
    }

    /** migrate_irq */
    method MoveEntry(from: Option<ObjId>, to: Option<ObjId>, i: IrqId)
      requires i in irq && (from.Some? ==> from.value in obj) && (to.Some? ==> to.value in obj)
      modifies this`irq, this`rebalance, this`obj
      ensures Now() == MigrateIrq(old(Now()), from, to, i)
    {
      hide Drop;
      var rest, found := DeleteEntry(Entries(from), i);
      if !found { return; }
      SetEntries(from, rest);
      SetEntries(to, Entries(to) + [i]);
      irq := irq[i := irq[i].(moved := true)];
    }

    /** migrate_irq_obj */
    method MigrateIrqObj(from: Option<ObjId>, to: Option<ObjId>, i: IrqId)
      requires HomeKnown(Now(), i) && (from.Some? ==> from.value in obj) && (to.Some? ==> to.value in obj)
      modifies this`irq, this`rebalance, this`obj
      ensures Now() == MigrateObj(old(Now()), from, to, i)
    {
      hide Drop;
      var src := if from.None? then irq[i].home else from;
      MoveEntry(src, to, i);
      if !irq[i].moved { return; }
      if src.Some? && obj[src.value].slots != INT_MAX {
        obj := obj[src.value := obj[src.value].(slots := obj[src.value].slots + 1)];
      }
      if to.Some? {
        var b := obj[to.value];
        if b.slots != INT_MAX { b := b.(slots := b.slots - 1); }
        obj := obj[to.value := b.(load := b.load + (irq[i].load + 1))];
      }
      irq := irq[i := irq[i].(home := to)];
    }

    /** force_rebalance_irq */
    method ForceRebalanceIrq(i: IrqId)
      requires HomeKnown(Now(), i)
      modifies this`irq, this`rebalance, this`obj
      ensures Now() == ForceRebalance(old(Now()), i)
    {
      hide MigrateObj;
      if irq[i].level == NoBalance { return; }
      if irq[i].home.None? {
        rebalance := rebalance + [i];
      } else {
        MigrateIrqObj(irq[i].home, None, i);
      }
    }

    /** add_new_irq */
    method AddNewIrq(i: IrqId, n: NewIrq)
      modifies this`irq, this`db, this`banned
      ensures Now() == AddIrq(old(Now()), i, n)
    {
      var known := KnowsIrq(i);
      if known { return; }
      irq := irq[i := Irq(if n.ban then NoBalance else n.level, n.cls, n.node, 0, 0, 0, false, false, None)];
      if n.ban { banned := banned + [i]; } else { db := db + [i]; }
    }

    /** remove_no_existing_irq */
    method RemoveNoExistingIrq(i: IrqId)
      requires HomeKnown(Now(), i)
      modifies this`irq, this`db, this`banned, this`rebalance, this`obj
      ensures Now() == RemoveIrq(old(Now()), i)
    {
      hide Drop;
      if irq[i].existing {
        irq := irq[i := irq[i].(existing := false)];
        return;
      }
      var found;
      db, found := DeleteEntry(db, i);
      banned, found := DeleteEntry(banned, i);
      rebalance, found := DeleteEntry(rebalance, i);
      var home := irq[i].home;
      if home.Some? {
        var rest;
        rest, found := DeleteEntry(obj[home.value].irqs, i);
        if found { obj := obj[home.value := obj[home.value].(irqs := rest, slots := INT_MAX)]; }
      }
      irq := irq - {i};
    }
  }
}
