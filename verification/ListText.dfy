/**
 The list form of a set of CPUs: __bitmap_parselist (bitmap.c) and the range
 printer of the user interface (bsnl_emit and copy_assigned_obj in ui/ui.c).
 */
module ListText {
  import opened Bits
  import opened Bitmap
  import opened HexText
  import HexCode

  const ERANGE := 34

  // ---- the parser as a function of its input

  datatype Item =
    | Stop(rest: string, c: char, a: nat, b: nat, totaldigits: nat)
    | Leave(code: int)

  function Digit(c: char): (d: nat)
    requires IsDigit(c)
    ensures d < 10
  {
    c as int - '0' as int
  }

  /** The inner loop: the next CPU number or range, starting with the previous character c. */
  function ScanItem(s: string, c: char, a: nat, b: nat, expDigit: bool, inRange: bool, totaldigits: nat): (r: Item)
    ensures r.Stop? ==> |r.rest| <= |s| && (|s| > 0 ==> |r.rest| < |s|)
    ensures r.Leave? ==> r.code == -EINVAL
  {
    if |s| == 0 then Item.Stop(s, c, a, b, totaldigits)
    else if IsSpace(s[0]) then ScanItem(s[1..], s[0], a, b, expDigit, inRange, totaldigits)
    else if totaldigits != 0 && s[0] != '\0' && IsSpace(c) then Item.Leave(-EINVAL)
    else if s[0] == '\0' || s[0] == ',' then Item.Stop(s[1..], s[0], a, b, totaldigits)
    else if s[0] == '-' then
      if expDigit || inRange then Item.Leave(-EINVAL) else ScanItem(s[1..], s[0], a, 0, true, true, totaldigits)
    else if !IsDigit(s[0]) then Item.Leave(-EINVAL)
    else
      var b' := 10 * b + Digit(s[0]);
      ScanItem(s[1..], s[0], if inRange then a else b', b', false, inRange, totaldigits + 1)
  }

  predicate Between(a: nat, q: nat, b: nat) { a <= q <= b }

  ghost function Range(a: nat, b: nat): set<nat> { set q: nat | q < b + 1 && Between(a, q, b) }

  datatype ListOutcome = ListOutcome(ret: int, cpus: set<nat>)

  ghost function ListLoop(s: string, c: char, totaldigits: nat, cpus: set<nat>, nmaskbits: nat): ListOutcome
    decreases |s|
  {
    match ScanItem(s, c, 0, 0, true, false, totaldigits)
    case Leave(code) => ListOutcome(code, cpus)
    case Stop(rest, c', a, b, total) =>
      if !(a <= b) then ListOutcome(-EINVAL, cpus)
      else if b >= nmaskbits then ListOutcome(-ERANGE, cpus)
      else if |rest| != 0 && c' == ',' then ListLoop(rest, c', total, cpus + Range(a, b), nmaskbits)
      else ListOutcome(0, cpus + Range(a, b))
  }

  ghost function ParseList(s: string, nmaskbits: nat): ListOutcome {
    ListLoop(s, '\0', 0, {}, nmaskbits)
  }

  // ---- the parser's loops

  /** The inner loop of __bitmap_parselist. */
  method NextItem(buf: string, from: nat, prev: char, digits: nat)
      returns (leave: bool, code: int, pos: nat, c: char, a: nat, b: nat, totaldigits: nat)
    requires from <= |buf|
    ensures from <= pos <= |buf| && (from < |buf| && !leave ==> from < pos)
    ensures ScanItem(buf[from..], prev, 0, 0, true, false, digits)
         == if leave then Item.Leave(code) else Item.Stop(buf[pos..], c, a, b, totaldigits)
  {
    hide IsSpace, IsDigit;
    ghost var item := ScanItem(buf[from..], prev, 0, 0, true, false, digits);
    leave, code, pos, c := false, 0, from, prev;
    a, b, totaldigits := 0, 0, digits;
    var expDigit, inRange := true, false;
    while pos < |buf|
      invariant from <= pos <= |buf| && !leave
      invariant item == ScanItem(buf[pos..], c, a, b, expDigit, inRange, totaldigits)
      decreases |buf| - pos
    {
      var old_c := c;
      assert buf[pos..][0] == buf[pos] && buf[pos..][1..] == buf[pos + 1..];
      c := buf[pos];
      pos := pos + 1;
      if IsSpace(c) { continue; }
      if totaldigits != 0 && c != '\0' && IsSpace(old_c) {
        leave, code := true, -EINVAL;
        return;
      }
      if c == '\0' || c == ',' { return; }
      if c == '-' {
        if expDigit || inRange {
          leave, code := true, -EINVAL;
          return;
        }
        b, inRange, expDigit := 0, true, true;
        continue;
      }
      if !IsDigit(c) {
        leave, code := true, -EINVAL;
        return;
      }
      b := 10 * b + Digit(c);
      if !inRange { a := b; }
      expDigit := false;
      totaldigits := totaldigits + 1;
    }
  }

  /** The first lim words hold exactly the CPUs of the set, the others what they held in `was`. */
  ghost predicate Holds(ws: seq<Word>, was: seq<Word>, lim: nat, cpus: set<nat>) {
    |ws| == |was| && forall q :: 0 <= q < 64 * |ws| ==> (BitAt(ws, q) <==> if q < 64 * lim then q in cpus else BitAt(was, q))
  }

  /** __bitmap_parselist: the loops compute ParseList, and the mask holds exactly its CPUs. */
  method ParseListMask(buf: string, mask: array<Word>, nmaskbits: nat) returns (ret: int)
    requires nmaskbits >= 1 && mask.Length >= Longs(nmaskbits)
    modifies mask
    ensures ret == ParseList(buf, nmaskbits).ret
    ensures BitSet(mask[..], nmaskbits) == ParseList(buf, nmaskbits).cpus
    ensures Holds(mask[..], old(mask[..]), Longs(nmaskbits), ParseList(buf, nmaskbits).cpus)
  {
    hide ScanItem, BitAt;
    ghost var spec := ParseList(buf, nmaskbits);
    ghost var was, lim := mask[..], Longs(nmaskbits);
    HexCode.Zero(mask, nmaskbits);
    ZeroHolds(mask[..], was, lim);
    ghost var cpus: set<nat> := {};
    var pos: nat, c, totaldigits: nat := 0, '\0', 0;
    assert buf[0..] == buf;
    ret := 0;
    while true
      invariant pos <= |buf| && ret == 0
      invariant forall q :: q in cpus ==> q < nmaskbits
      invariant Holds(mask[..], was, lim, cpus)
      invariant spec == ListLoop(buf[pos..], c, totaldigits, cpus, nmaskbits)
      decreases |buf| - pos
    {
      ghost var start := pos;
      var leave, code, a, b;
      leave, code, pos, c, a, b, totaldigits := NextItem(buf, pos, c, totaldigits);
      if leave {
        ret := code;
        break;
      }
      if !(a <= b) {
        ret := -EINVAL;
        break;
      }
      if b >= nmaskbits {
        ret := -ERANGE;
        break;
      }
      SetRange(mask, a, b, was, lim, cpus);
      cpus := cpus + Range(a, b);
      if !(pos < |buf| && c == ',') { break; }
    }
    assert BitSet(mask[..], nmaskbits) == cpus;
  }

  lemma ZeroHolds(ws: seq<Word>, was: seq<Word>, lim: nat)
    requires |ws| == |was| && lim <= |ws| && (forall j :: 0 <= j < lim ==> ws[j] == 0) && ws[lim..] == was[lim..]
    ensures Holds(ws, was, lim, {})
  {
    forall q | 0 <= q < 64 * |ws|
      ensures BitAt(ws, q) <==> q >= 64 * lim && BitAt(was, q)
    {
      BitZero(q % 64);
      if q >= 64 * lim { assert ws[q / 64] == ws[lim..][q / 64 - lim] && was[q / 64] == was[lim..][q / 64 - lim]; }
    }
  }

  method SetRange(mask: array<Word>, a0: nat, b: nat, ghost was: seq<Word>, ghost lim: nat, ghost cpus: set<nat>)
    requires a0 <= b < 64 * lim && lim <= mask.Length
    requires Holds(mask[..], was, lim, cpus)
    modifies mask
    ensures Holds(mask[..], was, lim, cpus + Range(a0, b))
  {
    hide BitAt;
    var a := a0;
    while a <= b
      invariant a0 <= a <= b + 1
      invariant forall q :: 0 <= q < 64 * mask.Length ==>
        (BitAt(mask[..], q) <==> if q < 64 * lim then q in cpus || a0 <= q < a else BitAt(was, q))
    {
      SetBit(a, mask);
      a := a + 1;
    }
  }

  // ---- decimal numbers

  ghost predicate AllDigits(s: string) { forall i :: 0 <= i < |s| ==> IsDigit(s[i]) }

  ghost function DecAcc(acc: nat, g: string): nat
    requires AllDigits(g)
    decreases |g|
  {
    if |g| == 0 then acc else DecAcc(10 * acc + Digit(g[0]), g[1..])
  }

  /** printf's "%d" on a natural number. */
  function Dec(n: nat): (s: string)
    ensures |s| >= 1
  {
    var d := ('0' as int + n % 10) as char;
    if n < 10 then [d] else Dec(n / 10) + [d]
  }

  lemma {:induction false} DecAccSnoc(acc: nat, g: string, c: char)
    requires AllDigits(g) && IsDigit(c)
    ensures AllDigits(g + [c]) && DecAcc(acc, g + [c]) == 10 * DecAcc(acc, g) + Digit(c)
    decreases |g|
  {
    if |g| == 0 {
      assert g + [c] == [c];
      assert DecAcc(10 * acc + Digit(c), [c][1..]) == 10 * acc + Digit(c);
    } else {
      assert (g + [c])[1..] == g[1..] + [c];
      DecAccSnoc(10 * acc + Digit(g[0]), g[1..], c);
    }
  }

  lemma {:induction false} DecValue(n: nat)
    ensures AllDigits(Dec(n)) && DecAcc(0, Dec(n)) == n
  {
    var d := ('0' as int + n % 10) as char;
    if n >= 10 {
      DecValue(n / 10);
      DecAccSnoc(0, Dec(n / 10), d);
    } else {
      assert DecAcc(0, [d]) == DecAcc(n, [d][1..]);
    }
  }

  lemma {:induction false} ScanDecimal(g: string, tail: string, c: char, a: nat, b: nat, exp: bool, inRange: bool, total: nat)
    requires AllDigits(g) && |g| >= 1 && !(total != 0 && IsSpace(c))
    ensures ScanItem(g + tail, c, a, b, exp, inRange, total)
         == ScanItem(tail, g[|g| - 1], if inRange then a else DecAcc(b, g), DecAcc(b, g), false, inRange, total + |g|)
    decreases |g|
  {
    var s := g + tail;
    assert s[0] == g[0] && s[1..] == g[1..] + tail;
    if |g| == 1 {
      assert g[1..] + tail == tail;
    } else {
      ScanDecimal(g[1..], tail, g[0], if inRange then a else 10 * b + Digit(g[0]), 10 * b + Digit(g[0]), false, inRange, total + 1);
    }
  }

  // ---- runs of consecutive numbers

  datatype Run = Run(lo: nat, hi: nat)

  function RunText(r: Run): string {
    if r.lo == r.hi then Dec(r.lo) else Dec(r.lo) + "-" + Dec(r.hi)
  }

  function RunsText(rs: seq<Run>): string {
    if |rs| == 0 then "" else if |rs| == 1 then RunText(rs[0]) else RunText(rs[0]) + "," + RunsText(rs[1..])
  }

  /** Ascending runs separated by gaps: no run can be extended or merged with another. */
  ghost predicate Maximal(rs: seq<Run>) {
    && (forall i :: 0 <= i < |rs| ==> rs[i].lo <= rs[i].hi)
    && (forall i, j :: 0 <= i < j < |rs| ==> rs[i].hi + 1 < rs[j].lo)
  }

  ghost function Members(rs: seq<Run>): set<nat> {
    if |rs| == 0 then {} else Range(rs[0].lo, rs[0].hi) + Members(rs[1..])
  }

  lemma {:induction false} MembersSnoc(rs: seq<Run>, r: Run)
    ensures Members(rs + [r]) == Members(rs) + Range(r.lo, r.hi)
  {
    if |rs| == 0 {
      assert rs + [r] == [r];
      assert Members([r][1..]) == {};
    } else {
      assert (rs + [r])[1..] == rs[1..] + [r];
      MembersSnoc(rs[1..], r);
    }
  }

  lemma {:induction false} RunsTextSnoc(rs: seq<Run>, r: Run)
    ensures RunsText(rs + [r]) == if rs == [] then RunText(r) else RunsText(rs) + "," + RunText(r)
  {
    if |rs| == 0 {
      assert rs + [r] == [r];
    } else {
      assert (rs + [r])[0] == rs[0] && (rs + [r])[1..] == rs[1..] + [r];
      if |rs| > 1 {
        RunsTextSnoc(rs[1..], r);
      } else {
        assert rs[1..] + [r] == [r];
      }
    }
  }

  /** One run followed by a comma or by the end of the text. */
  lemma ScanRun(r: Run, tail: string, c: char, total: nat)
    requires !(total != 0 && IsSpace(c))
    requires tail == "" || tail[0] == ','
    ensures
      var item := ScanItem(RunText(r) + tail, c, 0, 0, true, false, total);
      item.Stop? && item.a == r.lo && item.b == r.hi &&
      if tail == "" then item.rest == "" && item.c != ',' else item.rest == tail[1..] && item.c == ','
  {
    hide DecAcc, Dec;
    DecValue(r.lo);
    DecValue(r.hi);
    var lo, hi := Dec(r.lo), Dec(r.hi);
    if r.lo == r.hi {
      ScanDecimal(lo, tail, c, 0, 0, true, false, total);
    } else {
      var mid := "-" + (hi + tail);
      assert RunText(r) + tail == lo + mid;
      ScanDecimal(lo, mid, c, 0, 0, true, false, total);
      assert mid[0] == '-' && mid[1..] == hi + tail;
      ScanDecimal(hi, tail, '-', r.lo, 0, true, true, total + |lo|);
    }
  }

  lemma {:induction false} ParseRuns(rs: seq<Run>, c: char, total: nat, cpus: set<nat>, nmaskbits: nat)
    requires |rs| >= 1 && !(total != 0 && IsSpace(c))
    requires forall i :: 0 <= i < |rs| ==> rs[i].lo <= rs[i].hi < nmaskbits
    ensures ListLoop(RunsText(rs), c, total, cpus, nmaskbits) == ListOutcome(0, cpus + Members(rs))
    decreases |rs|
  {
    hide ScanItem, RunText;
    if |rs| == 1 {
      assert RunsText(rs) == RunText(rs[0]) + "";
      ScanRun(rs[0], "", c, total);
      assert Members(rs) == Range(rs[0].lo, rs[0].hi) + Members([]);
    } else {
      var tail := "," + RunsText(rs[1..]);
      assert RunsText(rs) == RunText(rs[0]) + tail;
      ScanRun(rs[0], tail, c, total);
      assert tail[1..] == RunsText(rs[1..]);
      RunsTextNonempty(rs[1..]);
      var item := ScanItem(RunsText(rs), c, 0, 0, true, false, total);
      ParseRuns(rs[1..], ',', item.totaldigits, cpus + Range(rs[0].lo, rs[0].hi), nmaskbits);
      assert cpus + Range(rs[0].lo, rs[0].hi) + Members(rs[1..]) == cpus + Members(rs);
    }
  }

  lemma RunsTextNonempty(rs: seq<Run>)
    requires |rs| >= 1
    ensures |RunsText(rs)| >= 1
  {
  }

  // ---- the range printer

  /** The static variables of ui.c and the growing text. */
  class RangePrinter {
    var rbot: int
    var rtop: int
    var text: string
    ghost var runs: seq<Run>   // the runs already written

    ghost predicate Valid()
      reads this
    {
      && text == RunsText(runs) && Maximal(runs)
      && (rtop == -1 ==> runs == [])
      && (rtop != -1 ==> 0 <= rbot <= rtop && forall i :: 0 <= i < |runs| ==> runs[i].hi + 1 < rbot)
    }

    /** The numbers seen so far. */
    ghost function Seen(): set<nat>
      requires Valid()
      reads this
    {
      Members(runs) + if rtop == -1 then {} else Range(rbot, rtop)
    }

    constructor ()
      ensures Valid() && Seen() == {} && rtop == -1
    {
      rbot, rtop, text, runs := 0, -1, "", [];
    }

    /** bsnl_emit: append the current run. */
    method Emit()
      requires Valid() && rtop != -1
      modifies this
      ensures runs == old(runs) + [Run(old(rbot), old(rtop))]
      ensures text == RunsText(runs) && Maximal(runs)
      ensures rbot == old(rbot) && rtop == old(rtop)
      ensures Members(runs) == old(Seen())
    {
      ghost var r := Run(rbot, rtop);
      RunsTextSnoc(runs, r);
      MembersSnoc(runs, r);
      if |runs| >= 1 { RunsTextNonempty(runs); }
      if |text| > 0 { text := text + ","; }
      if rbot == rtop {
        text := text + Dec(rbot);
      } else {
        text := text + (Dec(rbot) + "-" + Dec(rtop));
      }
      runs := runs + [r];
    }

    /** copy_assigned_obj: numbers arrive in ascending order. */
    method Copy(number: nat)
      requires Valid() && rtop <= number
      modifies this
      ensures Valid() && rtop == number
      ensures Seen() == old(Seen()) + {number}
    {
      hide RunsText;
      if rtop == -1 {
        rbot, rtop := number, number;
        assert Range(number, number) == {number};
        return;
      }
      ghost var before := Seen();
      if number > rtop + 1 {
        Emit();
        rbot := number;
        assert Range(number, number) == {number};
      } else {
        assert Range(rbot, number) == Range(rbot, rtop) + {number};
      }
      rtop := number;
    }
  }

  /** The loop of print_assigned_objects_string. */
  method PrintNumbers(xs: seq<nat>) returns (text: string, ghost runs: seq<Run>)
    requires |xs| >= 1
    requires forall i, j :: 0 <= i < j < |xs| ==> xs[i] <= xs[j]
    ensures text == RunsText(runs) && |runs| >= 1 && Maximal(runs)
    ensures Members(runs) == set i | 0 <= i < |xs| :: xs[i]
    ensures forall ts :: Maximal(ts) && Members(ts) == (set i | 0 <= i < |xs| :: xs[i]) ==> text == RunsText(ts)
  {
    var p := new RangePrinter();
    for k := 0 to |xs|
      invariant fresh(p) && p.Valid()
      invariant p.rtop == (if k == 0 then -1 else xs[k - 1])
      invariant p.Seen() == set i | 0 <= i < k :: xs[i]
    {
      p.Copy(xs[k]);
    }
    p.Emit();
    text, runs := p.text, p.runs;
    forall ts | Maximal(ts) && Members(ts) == set i | 0 <= i < |xs| :: xs[i]
      ensures text == RunsText(ts)
    {
      RunsAreUnique(runs, ts);
    }
  }

  lemma {:induction false} RunIsMember(rs: seq<Run>, i: nat, q: nat)
    requires i < |rs| && rs[i].lo <= q <= rs[i].hi
    ensures q in Members(rs)
  {
    if i == 0 {
      assert Between(rs[0].lo, q, rs[0].hi);
    } else {
      RunIsMember(rs[1..], i - 1, q);
    }
  }

  lemma {:induction false} MemberInRun(rs: seq<Run>, q: nat) returns (i: nat)
    requires q in Members(rs)
    ensures i < |rs| && rs[i].lo <= q <= rs[i].hi
  {
    if q in Range(rs[0].lo, rs[0].hi) {
      i := 0;
    } else {
      i := MemberInRun(rs[1..], q);
      i := i + 1;
    }
  }

  /** Parsing the printed runs returns 0 and sets exactly the printed numbers. */
  lemma ListRoundTrip(rs: seq<Run>, nmaskbits: nat)
    requires |rs| >= 1 && Maximal(rs)
    requires forall q :: q in Members(rs) ==> q < nmaskbits
    ensures ParseList(RunsText(rs), nmaskbits) == ListOutcome(0, Members(rs))
  {
    hide ListLoop, RunsText;
    forall i | 0 <= i < |rs|
      ensures rs[i].lo <= rs[i].hi < nmaskbits
    {
      RunIsMember(rs, i, rs[i].hi);
    }
    ParseRuns(rs, '\0', 0, {}, nmaskbits);
    assert {} + Members(rs) == Members(rs);
  }

  /** A set of numbers has only one list of maximal runs, so the printed text is canonical. */
  lemma {:induction false} RunsAreUnique(rs: seq<Run>, ts: seq<Run>)
    requires Maximal(rs) && Maximal(ts) && Members(rs) == Members(ts)
    ensures rs == ts
    decreases |rs|
  {
    if |rs| == 0 {
      if |ts| > 0 { RunIsMember(ts, 0, ts[0].lo); }
    } else {
      RunIsMember(rs, 0, rs[0].lo);
      var k := MemberInRun(ts, rs[0].lo);
      FirstRun(rs, ts);
      FirstRun(ts, rs);
      var r := rs[0];
      assert Members(rs[1..]) == Members(rs) - Range(r.lo, r.hi) by { TailMembers(rs); }
      assert Members(ts[1..]) == Members(ts) - Range(r.lo, r.hi) by { TailMembers(ts); }
      RunsAreUnique(rs[1..], ts[1..]);
    }
  }

  lemma FirstRun(rs: seq<Run>, ts: seq<Run>)
    requires Maximal(rs) && Maximal(ts) && Members(rs) == Members(ts) && |rs| >= 1 && |ts| >= 1
    ensures rs[0].lo >= ts[0].lo && rs[0].hi <= ts[0].hi
  {
    var lo, hi := rs[0].lo, rs[0].hi;
    RunIsMember(rs, 0, lo);
    RunIsMember(ts, 0, ts[0].lo);
    var i := MemberInRun(ts, lo);
    var j := MemberInRun(rs, ts[0].lo);
    if hi > ts[0].hi {
      // ts[0].hi + 1 is inside rs[0], so some run of ts holds it although runs keep a gap
      RunIsMember(rs, 0, ts[0].hi + 1);
      var k := MemberInRun(ts, ts[0].hi + 1);
    }
  }

  lemma TailMembers(rs: seq<Run>)
    requires Maximal(rs) && |rs| >= 1
    ensures Members(rs[1..]) == Members(rs) - Range(rs[0].lo, rs[0].hi)
  {
    forall q | q in Members(rs[1..])
      ensures q !in Range(rs[0].lo, rs[0].hi)
    {
      var i := MemberInRun(rs[1..], q);
      assert rs[1..][i] == rs[i + 1];
    }
  }

  /** Printing CPU numbers and parsing the text sets exactly those bits. */
  method PrintThenParseList(xs: seq<nat>, mask: array<Word>, nmaskbits: nat) returns (ret: int)
    requires |xs| >= 1 && mask.Length >= Longs(nmaskbits)
    requires forall i, j :: 0 <= i < j < |xs| ==> xs[i] <= xs[j]
    requires forall i :: 0 <= i < |xs| ==> xs[i] < nmaskbits
    modifies mask
    ensures ret == 0
    ensures BitSet(mask[..], nmaskbits) == set i | 0 <= i < |xs| :: xs[i]
  {
    hide ParseList, RunsText, BitSet;
    var text, runs := PrintNumbers(xs);
    forall q | q in Members(runs)
      ensures q < nmaskbits
    {
    }
    ListRoundTrip(runs, nmaskbits);
    assert nmaskbits >= 1 by { assert xs[0] < nmaskbits; }
    ret := ParseListMask(text, mask, nmaskbits);
  }

  /** An empty item is accepted and sets bit 0: the empty string does not mean the empty set. */
  lemma EmptyListSetsBitZero(nmaskbits: nat)
    requires nmaskbits >= 1
    ensures ParseList("", nmaskbits) == ListOutcome(0, {0})
  {
    assert Range(0, 0) == {0};
  }

  lemma {:induction false} LoopKeeps(s: string, c: char, totaldigits: nat, cpus: set<nat>, nmaskbits: nat)
    ensures
      var o := ListLoop(s, c, totaldigits, cpus, nmaskbits);
      o.ret == 0 ==> exists q :: q in o.cpus && q < nmaskbits
    decreases |s|
  {
    hide ScanItem;
    var item := ScanItem(s, c, 0, 0, true, false, totaldigits);
    if item.Stop? && item.a <= item.b < nmaskbits {
      if |item.rest| != 0 && item.c == ',' {
        LoopKeeps(item.rest, item.c, item.totaldigits, cpus + Range(item.a, item.b), nmaskbits);
      } else {
        assert Between(item.a, item.b, item.b);
        assert item.b in cpus + Range(item.a, item.b);
      }
    }
  }

  /** No accepted text denotes the empty set. */
  lemma NoTextMeansEmpty(s: string, nmaskbits: nat)
    ensures ParseList(s, nmaskbits).ret == 0 ==> ParseList(s, nmaskbits).cpus != {}
  {
    hide ListLoop;
    LoopKeeps(s, '\0', 0, {}, nmaskbits);
  }
}
