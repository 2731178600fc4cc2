/**
 The dynamic state: interrupts, the lists they are on, and what each object carries.
 Interrupts are named by their number, which is also how the lists are searched.
 */
module Irqs {
  import opened Topology

  type IrqId = nat

  const INT_MAX := 0x7fff_ffff

  /** BALANCE_NONE, BALANCE_PACKAGE, BALANCE_CACHE, BALANCE_CORE */
  datatype Level = NoBalance | PackageLevel | CacheLevel | CoreLevel

  /** struct irq_info; `home` is assigned_obj. */
  datatype Irq = Irq(
    level: Level, cls: nat, node: ObjId,
    load: nat, count: nat, last: nat,
    moved: bool, existing: bool, home: Option<ObjId>)

  /** The fields of struct topo_obj that change. */
  datatype Obj = Obj(load: nat, slots: int, powersave: bool, irqs: seq<IrqId>, irqCount: nat)

  /** One attempt to write an affinity: interrupt and target object. */
  datatype Write = Write(irq: IrqId, target: ObjId)

  datatype State = State(
    irq: map<IrqId, Irq>, db: seq<IrqId>, banned: seq<IrqId>,
    rebalance: seq<IrqId>, obj: map<ObjId, Obj>, writes: seq<Write>)

  // ---- lists

  /** g_list_delete_link at the first entry found. */
  function Drop(l: seq<nat>, i: nat): seq<nat> {
    if |l| == 0 then [] else if l[0] == i then l[1..] else [l[0]] + Drop(l[1..], i)
  }

  lemma {:induction false} DropElems(l: seq<nat>, i: nat)
    requires NoDup(l)
    ensures NoDup(Drop(l, i))
    ensures forall x :: x in Drop(l, i) <==> x in l && x != i
    ensures i in l ==> |Drop(l, i)| == |l| - 1
    ensures i !in l ==> Drop(l, i) == l
  {
    if |l| > 0 {
      assert l == [l[0]] + l[1..];
      DropElems(l[1..], i);
      if l[0] != i {
        var d := Drop(l[1..], i);
        assert l[0] !in l[1..];
        forall a, b | 0 <= a < b < |[l[0]] + d|
          ensures ([l[0]] + d)[a] != ([l[0]] + d)[b]
        {
          assert d[b - 1] in d;
        }
      }
    }
  }

  /** The list an interrupt with this home belongs on; none means the rebalance list. */
  function ListAt(s: State, at: Option<ObjId>): seq<IrqId>
    requires at.Some? ==> at.value in s.obj
  {
    if at.None? then s.rebalance else s.obj[at.value].irqs
  }

  function WithList(s: State, at: Option<ObjId>, l: seq<IrqId>): State
    requires at.Some? ==> at.value in s.obj
  {
    if at.None? then s.(rebalance := l)
    else s.(obj := s.obj[at.value := s.obj[at.value].(irqs := l)])
  }

  function WithIrq(s: State, i: IrqId, q: Irq): State { s.(irq := s.irq[i := q]) }

  function WithObj(s: State, o: ObjId, b: Obj): State { s.(obj := s.obj[o := b]) }

  // ---- the operations

  ghost predicate HomeKnown(s: State, i: IrqId) {
    i in s.irq && (s.irq[i].home.Some? ==> s.irq[i].home.value in s.obj)
  }

  /** No pointer dangles: listed interrupts have records, homes are objects. */
  ghost predicate Linked(s: State) {
    && (forall i :: i in s.db ==> i in s.irq)
    && (forall i {:trigger HomeKnown(s, i)} :: i in s.irq ==> HomeKnown(s, i))
  }

  lemma LinkedKnows(s: State, i: IrqId)
    requires Linked(s) && i in s.irq
    ensures HomeKnown(s, i)
  {
  }

  lemma DbKnown(s: State, n: nat)
    requires Linked(s) && n < |s.db|
    ensures s.db[n] in s.irq
  {
  }

  /** r has the same interrupts and objects as s, and no dangling pointer. */
  ghost predicate SameFrame(s: State, r: State) {
    r.obj.Keys == s.obj.Keys && r.irq.Keys == s.irq.Keys && r.db == s.db && r.banned == s.banned && Linked(r)
  }

  lemma FrameList(s: State, at: Option<ObjId>, l: seq<IrqId>)
    requires Linked(s) && (at.Some? ==> at.value in s.obj)
    ensures SameFrame(s, WithList(s, at, l))
  {
    var r := WithList(s, at, l);
    forall x | x in r.irq ensures HomeKnown(r, x) { assert HomeKnown(s, x); }
  }

  lemma FrameObj(s: State, o: ObjId, b: Obj)
    requires Linked(s) && o in s.obj
    ensures SameFrame(s, WithObj(s, o, b))
  {
    var r := WithObj(s, o, b);
    forall x | x in r.irq ensures HomeKnown(r, x) { assert HomeKnown(s, x); }
  }

  lemma FrameIrq(s: State, i: IrqId, q: Irq)
    requires Linked(s) && i in s.irq && (q.home.Some? ==> q.home.value in s.obj)
    ensures SameFrame(s, WithIrq(s, i, q))
  {
    var r := WithIrq(s, i, q);
    forall x | x in r.irq ensures HomeKnown(r, x) { assert HomeKnown(s, x); }
  }

  /** migrate_irq: move the entry if it is found, and only then set `moved`. */
  function MigrateIrq(s: State, from: Option<ObjId>, to: Option<ObjId>, i: IrqId): (r: State)
    requires i in s.irq
    requires from.Some? ==> from.value in s.obj
    requires to.Some? ==> to.value in s.obj
    ensures r.irq.Keys == s.irq.Keys && r.obj.Keys == s.obj.Keys
  {
    if i !in ListAt(s, from) then s
    else
      var s1 := WithList(s, from, Drop(ListAt(s, from), i));
      var s2 := WithList(s1, to, ListAt(s1, to) + [i]);
      WithIrq(s2, i, s2.irq[i].(moved := true))
  }

  /** Slot and load accounting of migrate_irq_obj. */
  function Leave(s: State, from: Option<ObjId>): State
    requires from.Some? ==> from.value in s.obj
  {
    if from.None? || s.obj[from.value].slots == INT_MAX then s
    else WithObj(s, from.value, s.obj[from.value].(slots := s.obj[from.value].slots + 1))
  }

  function Arrive(s: State, to: Option<ObjId>, load: nat): State
    requires to.Some? ==> to.value in s.obj
  {
    if to.None? then s
    else
      var b := s.obj[to.value];
      WithObj(s, to.value, b.(slots := if b.slots == INT_MAX then b.slots else b.slots - 1, load := b.load + (load + 1)))
  }

  /** migrate_irq_obj */
  function MigrateObj(s: State, from: Option<ObjId>, to: Option<ObjId>, i: IrqId): State
    requires HomeKnown(s, i)
    requires from.Some? ==> from.value in s.obj
    requires to.Some? ==> to.value in s.obj
  {
    var src := if from.None? then s.irq[i].home else from;
    var s1 := MigrateIrq(s, src, to, i);
    if !s1.irq[i].moved then s1
    else
      var s2 := Arrive(Leave(s1, src), to, s1.irq[i].load);
      WithIrq(s2, i, s2.irq[i].(home := to))
  }

  /** A move touches one record: nothing, or the new home together with the mark. */
  lemma MigrateRecord(s: State, from: Option<ObjId>, to: Option<ObjId>, i: IrqId)
    requires HomeKnown(s, i) && (from.Some? ==> from.value in s.obj) && (to.Some? ==> to.value in s.obj)
    ensures
      var r := MigrateObj(s, from, to, i);
      r.irq == s.irq || r.irq == s.irq[i := s.irq[i].(moved := true, home := to)]
  {
    hide Drop;
    var src := if from.None? then s.irq[i].home else from;
    MigrateIrqRecord(s, src, to, i);
    hide MigrateIrq;
    var s1 := MigrateIrq(s, src, to, i);
    assert Arrive(Leave(s1, src), to, s1.irq[i].load).irq == s1.irq;
  }

  lemma MigrateIrqRecord(s: State, from: Option<ObjId>, to: Option<ObjId>, i: IrqId)
    requires i in s.irq && (from.Some? ==> from.value in s.obj) && (to.Some? ==> to.value in s.obj)
    ensures
      var r := MigrateIrq(s, from, to, i);
      r.irq == s.irq || r.irq == s.irq[i := s.irq[i].(moved := true)]
  {
    hide Drop;
  }

  /** force_rebalance_irq */
  function ForceRebalance(s: State, i: IrqId): State
    requires HomeKnown(s, i)
  {
    if s.irq[i].level == NoBalance then s
    else if s.irq[i].home.None? then s.(rebalance := s.rebalance + [i])
    else MigrateObj(s, s.irq[i].home, None, i)
  }

  lemma FrameMigrate(s: State, from: Option<ObjId>, to: Option<ObjId>, i: IrqId)
    requires Linked(s) && HomeKnown(s, i)
    requires from.Some? ==> from.value in s.obj
    requires to.Some? ==> to.value in s.obj
    ensures SameFrame(s, MigrateObj(s, from, to, i))
  {
    hide Drop, Linked;
    var src := if from.None? then s.irq[i].home else from;
    if i in ListAt(s, src) {
      FrameList(s, src, Drop(ListAt(s, src), i));
      var s1 := WithList(s, src, Drop(ListAt(s, src), i));
      FrameList(s1, to, ListAt(s1, to) + [i]);
      var s2 := WithList(s1, to, ListAt(s1, to) + [i]);
      FrameIrq(s2, i, s2.irq[i].(moved := true));
    }
    var s3 := MigrateIrq(s, src, to, i);
    assert SameFrame(s, s3);
    var s4 := Leave(s3, src);
    if s4 != s3 { FrameObj(s3, src.value, s4.obj[src.value]); }
    var s5 := Arrive(s4, to, s3.irq[i].load);
    if s5 != s4 { FrameObj(s4, to.value, s5.obj[to.value]); }
    FrameIrq(s5, i, s5.irq[i].(home := to));
  }

  lemma FrameForce(s: State, i: IrqId)
    requires Linked(s) && HomeKnown(s, i)
    ensures SameFrame(s, ForceRebalance(s, i))
  {
    hide MigrateObj, Linked;
    if s.irq[i].level != NoBalance {
      if s.irq[i].home.None? {
        FrameList(s, None, s.rebalance + [i]);
      } else {
        FrameMigrate(s, s.irq[i].home, None, i);
      }
    }
  }

  /** What a policy, the device class and the kernel say about a new interrupt. */
  datatype NewIrq = NewIrq(ban: bool, level: Level, cls: nat, node: ObjId)

  /** add_new_irq: nothing if the number is known, else an entry in the database or the banned list. */
  function AddIrq(s: State, i: IrqId, n: NewIrq): State {
    if i in s.db || i in s.banned then s
    else
      var added := Irq(if n.ban then NoBalance else n.level, n.cls, n.node, 0, 0, 0, false, false, None);
      if n.ban then WithIrq(s, i, added).(banned := s.banned + [i])
      else WithIrq(s, i, added).(db := s.db + [i])
  }

  /** proc_irq_hotplug for a number that is not yet known. */
  function Hotplug(s: State, i: IrqId, n: NewIrq): State
    requires i !in s.db && i !in s.banned
  {
    ForceRebalance(AddIrq(s, i, n), i)
  }

  /** remove_no_existing_irq */
  function RemoveIrq(s: State, i: IrqId): State
    requires HomeKnown(s, i)
  {
    if s.irq[i].existing then WithIrq(s, i, s.irq[i].(existing := false))
    else
      var s1 := s.(db := Drop(s.db, i), banned := Drop(s.banned, i), rebalance := Drop(s.rebalance, i));
      var home := s.irq[i].home;
      var s2 := if home.Some? && i in s1.obj[home.value].irqs
                then WithObj(s1, home.value, s1.obj[home.value].(irqs := Drop(s1.obj[home.value].irqs, i), slots := INT_MAX))
                else s1;
      s2.(irq := s2.irq - {i})
  }

  // ---- ownership

  /** The database, the banned list and the interrupt records agree. */
  ghost predicate Registered(s: State) {
    && NoDup(s.db) && NoDup(s.banned)
    && (forall i :: i in s.db ==> i !in s.banned)
    && (forall i :: i in s.irq <==> i in s.db || i in s.banned)
    && (forall i :: i in s.banned ==> s.irq[i].level == NoBalance && s.irq[i].home == None)
    && (forall i :: i in s.irq && s.irq[i].level == NoBalance ==> !s.irq[i].moved)
  }

  /** Interrupt i is on the list at this place. */
  ghost predicate FoundAt(s: State, i: IrqId, at: Option<ObjId>) {
    (at.Some? ==> at.value in s.obj) && i in ListAt(s, at)
  }

  ghost predicate NoRepeat(s: State, at: Option<ObjId>) {
    (at.Some? ==> at.value in s.obj) ==> NoDup(ListAt(s, at))
  }

  /**
   Every list entry is a database interrupt at home there, without repeats; and every
   database interrupt is found at its home, except an unbalanced one without a home.
   */
  ghost predicate Owned(s: State) {
    && Registered(s)
    && (forall at :: NoRepeat(s, at))
    && (forall i, at :: FoundAt(s, i, at) ==>
          i in s.db && s.irq[i].home == at && (at.None? ==> s.irq[i].level != NoBalance))
    && (forall i :: i in s.db && (s.irq[i].home.Some? || s.irq[i].level != NoBalance) ==>
          FoundAt(s, i, s.irq[i].home))
  }

  /** A balanced database interrupt is on exactly one list, the one named by assigned_obj; a removed one on none. */
  lemma ExactlyOneList(s: State, i: IrqId, at: Option<ObjId>)
    requires Owned(s)
    ensures i in s.db && s.irq[i].level != NoBalance ==> (FoundAt(s, i, at) <==> s.irq[i].home == at)
    ensures i !in s.db ==> !FoundAt(s, i, at)
    ensures NoRepeat(s, at)
  {
    hide FoundAt, NoRepeat;
  }

  /** migrate_irq_obj when the entry is found. */
  lemma MigrateFound(s: State, from: Option<ObjId>, to: Option<ObjId>, i: IrqId)
    requires HomeKnown(s, i)
    requires from.None? || from == s.irq[i].home
    requires to.Some? ==> to.value in s.obj
    requires i in ListAt(s, s.irq[i].home)
    ensures
      var r := MigrateObj(s, from, to, i);
      && r.irq == s.irq[i := s.irq[i].(moved := true, home := to)]
      && r.db == s.db && r.banned == s.banned && r.writes == s.writes
      && r.obj.Keys == s.obj.Keys
  {
    hide Drop;
  }

  /** What happens to each list. */
  lemma MigrateListAt(s: State, from: Option<ObjId>, to: Option<ObjId>, i: IrqId, at: Option<ObjId>)
    requires HomeKnown(s, i)
    requires from.None? || from == s.irq[i].home
    requires to.Some? ==> to.value in s.obj
    requires at.Some? ==> at.value in s.obj
    requires i in ListAt(s, s.irq[i].home)
    ensures
      var r := MigrateObj(s, from, to, i);
      var l := if at == s.irq[i].home then Drop(ListAt(s, at), i) else ListAt(s, at);
      (at.Some? ==> at.value in r.obj) && ListAt(r, at) == if at == to then l + [i] else l
  {
    hide Drop;
  }

  lemma OwnedLinked(s: State)
    requires Owned(s)
    ensures Linked(s)
  {
    forall i | i in s.irq
      ensures HomeKnown(s, i)
    {
      if i in s.db && s.irq[i].home.Some? { assert FoundAt(s, i, s.irq[i].home); }
    }
  }

  /** An interrupt to move: in the database and on the list of its home. */
  ghost predicate Movable(s: State, i: IrqId) {
    i in s.db && i in s.irq && FoundAt(s, i, s.irq[i].home)
  }

  lemma OwnedMovable(s: State, i: IrqId)
    requires Owned(s) && i in s.db && (s.irq[i].home.Some? || s.irq[i].level != NoBalance)
    ensures Movable(s, i) && HomeKnown(s, i)
  {
    hide NoRepeat;
  }

  /**
   migrate_irq_obj takes `moved` for "the entry was found". That is right exactly when the entry is there or the
   flag was clear before; ownership puts the entry of a balanced interrupt there.
   */
  lemma FoundTest(s: State, from: Option<ObjId>, to: Option<ObjId>, i: IrqId)
    requires HomeKnown(s, i) && (from.Some? ==> from.value in s.obj) && (to.Some? ==> to.value in s.obj)
    ensures
      var src := if from.None? then s.irq[i].home else from;
      && ((MigrateIrq(s, src, to, i).irq[i].moved <==> i in ListAt(s, src)) <==> (i in ListAt(s, src) || !s.irq[i].moved))
      && (Owned(s) && s.irq[i].level != NoBalance && (from.None? || from == s.irq[i].home) ==> i in ListAt(s, src))
  {
    hide Drop, NoRepeat, NoDup;
    if Owned(s) && s.irq[i].level != NoBalance && (from.None? || from == s.irq[i].home) { assert FoundAt(s, i, s.irq[i].home); }
  }

  /** After the move the interrupt is found at its new home only, and all others where they were. */
  lemma MigrateFoundAt(s: State, from: Option<ObjId>, to: Option<ObjId>, i: IrqId, x: IrqId, at: Option<ObjId>)
    requires Owned(s) && Movable(s, i)
    requires from.None? || from == s.irq[i].home
    requires to.Some? ==> to.value in s.obj
    ensures
      var r := MigrateObj(s, from, to, i);
      && (FoundAt(r, x, at) <==> if x == i then at == to else FoundAt(s, x, at))
      && NoRepeat(r, at)
  {
    hide MigrateObj, Drop;
    MigrateFound(s, from, to, i);
    var r := MigrateObj(s, from, to, i);
    var home := s.irq[i].home;
    assert NoRepeat(s, at) && NoRepeat(s, home);
    if at.None? || at.value in s.obj {
      MigrateListAt(s, from, to, i, at);
      var l := ListAt(s, at);
      assert FoundAt(s, i, at) ==> at == home;
      DropElems(l, i);
    }
  }

  /** migrate_irq_obj from the interrupt's own home keeps ownership. */
  lemma MigrateOwned(s: State, from: Option<ObjId>, to: Option<ObjId>, i: IrqId)
    requires Owned(s) && Movable(s, i) && s.irq[i].level != NoBalance
    requires from.None? || from == s.irq[i].home
    requires to.Some? ==> to.value in s.obj
    ensures Owned(MigrateObj(s, from, to, i))
    ensures Movable(MigrateObj(s, from, to, i), i)
  {
    hide MigrateObj, NoDup, FoundAt, NoRepeat;
    FoundMeans(s, i, s.irq[i].home);
    var r := MigrateObj(s, from, to, i);
    MigrateFound(s, from, to, i);
    forall x, at
      ensures FoundAt(r, x, at) <==> if x == i then at == to else FoundAt(s, x, at)
    {
      MigrateFoundAt(s, from, to, i, x, at);
    }
    forall at
      ensures NoRepeat(r, at)
    {
      MigrateFoundAt(s, from, to, i, i, at);
    }
    assert Registered(r);
    assert FoundAt(r, i, to);
  }

  lemma FoundMeans(s: State, i: IrqId, at: Option<ObjId>)
    requires FoundAt(s, i, at)
    ensures (at.Some? ==> at.value in s.obj) && i in ListAt(s, at)
  {
  }

  /** r differs from s in loads, slots, counters and flags only; an interrupt with a home may become unbalanced. */
  ghost predicate Quiet(s: State, r: State) {
    && r.db == s.db && r.banned == s.banned && r.rebalance == s.rebalance
    && r.obj.Keys == s.obj.Keys && r.irq.Keys == s.irq.Keys
    && (forall o :: o in s.obj ==> r.obj[o].irqs == s.obj[o].irqs)
    && (forall i :: i in s.irq ==> r.irq[i].home == s.irq[i].home)
    && (forall i :: i in s.irq && r.irq[i].level != s.irq[i].level ==>
          r.irq[i].level == NoBalance && s.irq[i].home.Some?)
    && (forall i :: i in s.irq && r.irq[i].level == NoBalance ==> !r.irq[i].moved)
  }

  lemma QuietFoundAt(s: State, r: State, x: IrqId, at: Option<ObjId>)
    requires Quiet(s, r)
    ensures FoundAt(r, x, at) <==> FoundAt(s, x, at)
    ensures NoRepeat(r, at) <==> NoRepeat(s, at)
  {
    hide NoDup;
  }

  lemma QuietOwned(s: State, r: State)
    requires Owned(s) && Quiet(s, r)
    ensures Owned(r)
  {
    hide NoDup, FoundAt, NoRepeat;
    forall x, at
      ensures FoundAt(r, x, at) <==> FoundAt(s, x, at)
    {
      QuietFoundAt(s, r, x, at);
    }
    forall at
      ensures NoRepeat(r, at)
    {
      QuietFoundAt(s, r, 0, at);
    }
    assert Registered(r);
  }

  /** force_rebalance_irq on an interrupt that has a home or is unbalanced. */
  lemma ForceOwned(s: State, i: IrqId)
    requires Owned(s) && i in s.irq && (s.irq[i].home.Some? || s.irq[i].level == NoBalance)
    ensures HomeKnown(s, i) && Owned(ForceRebalance(s, i))
  {
    hide NoDup, FoundAt, NoRepeat, MigrateObj;
    if s.irq[i].level != NoBalance {
      OwnedMovable(s, i);
      FoundMeans(s, i, s.irq[i].home);
      MigrateOwned(s, s.irq[i].home, None, i);
    } else if s.irq[i].home.Some? {
      OwnedMovable(s, i);
    }
  }

  /** The state after a hot-plug, field by field. */
  lemma HotplugShape(s: State, i: IrqId, n: NewIrq)
    requires Owned(s) && i !in s.db && i !in s.banned
    ensures
      var r := Hotplug(s, i, n);
      && r.obj == s.obj && r.writes == s.writes
      && r.irq.Keys == s.irq.Keys + {i} && (forall x :: x in s.irq ==> r.irq[x] == s.irq[x])
      && r.irq[i].home == None && r.irq[i].level == (if n.ban then NoBalance else n.level)
      && r.irq[i].cls == n.cls && r.irq[i].node == n.node && r.irq[i].load == 0 && r.irq[i].count == 0 && r.irq[i].last == 0
      && !r.irq[i].moved && !r.irq[i].existing
      && r.db == (if n.ban then s.db else s.db + [i])
      && r.banned == (if n.ban then s.banned + [i] else s.banned)
      && r.rebalance == (if n.ban || n.level == NoBalance then s.rebalance else s.rebalance + [i])
  {
    hide NoDup, FoundAt, NoRepeat;
  }

  /** Who is on which list after a hot-plug. */
  lemma HotplugFoundAt(s: State, i: IrqId, n: NewIrq, x: IrqId, at: Option<ObjId>)
    requires Owned(s) && i !in s.db && i !in s.banned
    ensures
      var r := Hotplug(s, i, n);
      && (FoundAt(r, x, at) <==> FoundAt(s, x, at) || (x == i && at == None && !n.ban && n.level != NoBalance))
      && NoRepeat(r, at)
  {
    hide NoDup, Hotplug;
    HotplugShape(s, i, n);
    AppendUnknown(s.rebalance, i);
    assert NoRepeat(s, at) && !FoundAt(s, i, None);
  }

  /** A hot-plugged interrupt: banned, unbalanced, or waiting on the rebalance list. */
  lemma HotplugOwned(s: State, i: IrqId, n: NewIrq)
    requires Owned(s) && i !in s.db && i !in s.banned
    ensures Owned(Hotplug(s, i, n))
  {
    hide NoDup, Hotplug, FoundAt, NoRepeat, Registered;
    var r := Hotplug(s, i, n);
    HotplugShape(s, i, n);
    HotplugRegistered(s, i, n);
    forall x, at
      ensures FoundAt(r, x, at) <==> FoundAt(s, x, at) || (x == i && at == None && !n.ban && n.level != NoBalance)
    {
      HotplugFoundAt(s, i, n, x, at);
    }
    forall at
      ensures NoRepeat(r, at)
    {
      HotplugFoundAt(s, i, n, i, at);
    }
  }

  lemma HotplugRegistered(s: State, i: IrqId, n: NewIrq)
    requires Owned(s) && i !in s.db && i !in s.banned
    ensures
      var r := Hotplug(s, i, n);
      && Registered(r) && i !in s.irq && (forall x :: x in s.db ==> x in s.irq)
      && (forall x :: x in r.db <==> x in s.db || (x == i && !n.ban))
  {
    hide NoDup, Hotplug, FoundAt, NoRepeat;
    HotplugShape(s, i, n);
    AppendUnknown(s.db, i);
    HotplugListed(s, i, n);
  }

  lemma HotplugListed(s: State, i: IrqId, n: NewIrq)
    requires Owned(s) && i !in s.db && i !in s.banned
    ensures Registered(s) && Registered(Hotplug(s, i, n)) && i !in s.irq
  {
    hide NoDup, Hotplug, FoundAt, NoRepeat;
    HotplugShape(s, i, n);
    AppendUnknown(s.db, i);
    AppendUnknown(s.banned, i);
  }

  lemma AppendUnknown(l: seq<nat>, i: nat)
    ensures NoDup(l) && i !in l ==> NoDup(l + [i])
    ensures forall x :: x in l + [i] <==> x in l || x == i
  {
  }

  /** remove_no_existing_irq: an interrupt seen again stays, any other disappears from every list. */
  lemma RemoveOwned(s: State, i: IrqId)
    requires Owned(s) && i in s.irq
    ensures HomeKnown(s, i) && Owned(RemoveIrq(s, i))
    ensures s.irq[i].existing ==> i in RemoveIrq(s, i).irq
    ensures !s.irq[i].existing ==> i !in RemoveIrq(s, i).irq && forall at :: !FoundAt(RemoveIrq(s, i), i, at)
  {
    hide FoundAt, NoRepeat, NoDup, Drop;
    if s.irq[i].home.Some? {
      OwnedMovable(s, i);
    }
    if s.irq[i].existing {
      QuietOwned(s, RemoveIrq(s, i));
    } else {
      RemoveGone(s, i);
    }
  }

  lemma RemoveGone(s: State, i: IrqId)
    requires Owned(s) && i in s.irq && HomeKnown(s, i) && !s.irq[i].existing
    ensures Owned(RemoveIrq(s, i))
    ensures i !in RemoveIrq(s, i).irq && forall at :: !FoundAt(RemoveIrq(s, i), i, at)
  {
    hide FoundAt, NoRepeat, NoDup, Drop, RemoveIrq;
    var r := RemoveIrq(s, i);
    forall x, at
      ensures FoundAt(r, x, at) <==> x != i && FoundAt(s, x, at)
    {
      RemoveFoundAt(s, i, x, at);
    }
    forall at
      ensures NoRepeat(r, at)
    {
      RemoveFoundAt(s, i, i, at);
    }
    RemoveRegistered(s, i);
  }

  lemma RemoveFoundAt(s: State, i: IrqId, x: IrqId, at: Option<ObjId>)
    requires Owned(s) && i in s.irq && HomeKnown(s, i) && !s.irq[i].existing
    ensures FoundAt(RemoveIrq(s, i), x, at) <==> x != i && FoundAt(s, x, at)
    ensures NoRepeat(RemoveIrq(s, i), at)
  {
    hide Drop;
    var r := RemoveIrq(s, i);
    assert r.obj.Keys == s.obj.Keys;
    assert NoRepeat(s, at);
    if at.None? || at.value in s.obj {
      var l := ListAt(s, at);
      DropElems(l, i);
      assert FoundAt(s, i, at) ==> s.irq[i].home == at;
      assert ListAt(r, at) == Drop(l, i);
    }
  }

  lemma RemoveRegistered(s: State, i: IrqId)
    requires Owned(s) && i in s.irq && HomeKnown(s, i) && !s.irq[i].existing
    ensures
      var r := RemoveIrq(s, i);
      && Registered(r) && r.irq == s.irq - {i}
      && forall x :: x in r.db <==> x in s.db && x != i
  {
    hide Drop, FoundAt, NoRepeat, NoDup;
    DropElems(s.db, i);
    DropElems(s.banned, i);
  }
}
