/**
 Every text that __bitmap_parselist accepts: items between commas, white space only before the first
 digit and at the end, the end of the buffer or a NUL. An item may be empty and then names bit 0.
 */
module ListForms {
  import opened HexText
  import opened ListText

  // ---- the form

  /** What stands between two commas: nothing, a number, a range, or a number and a dash. */
  datatype Entry = Nothing | Single(lo: string) | Span(lo: string, hi: string) | Dangling(lo: string)

  /** An entry with white space before it. */
  datatype Piece = Piece(pad: string, entry: Entry)

  ghost predicate Digits(g: string) { |g| >= 1 && AllDigits(g) }

  ghost predicate Valid(e: Entry) {
    match e
    case Nothing => true
    case Single(lo) => Digits(lo)
    case Span(lo, hi) => Digits(lo) && Digits(hi)
    case Dangling(lo) => Digits(lo)
  }

  function EntryText(e: Entry): string {
    match e
    case Nothing => ""
    case Single(lo) => lo
    case Span(lo, hi) => lo + ("-" + hi)
    case Dangling(lo) => lo + "-"
  }

  /** The bounds the parser works with: an empty entry is 0, a missing upper bound is 0. */
  ghost function BoundsOf(e: Entry): Run
    requires Valid(e)
  {
    match e
    case Nothing => Run(0, 0)
    case Single(lo) => Run(DecAcc(0, lo), DecAcc(0, lo))
    case Span(lo, hi) => Run(DecAcc(0, lo), DecAcc(0, hi))
    case Dangling(lo) => Run(DecAcc(0, lo), 0)
  }

  function PiecesText(ps: seq<Piece>): string {
    if |ps| == 0 then ""
    else ps[0].pad + (EntryText(ps[0].entry) + if |ps| == 1 then "" else "," + PiecesText(ps[1..]))
  }

  /** White space before an entry is possible only while no digit has been read. */
  ghost predicate Spaced(ps: seq<Piece>, digits: bool) {
    |ps| == 0 ||
    (Valid(ps[0].entry) && AllSpace(ps[0].pad) && (digits ==> ps[0].pad == "") &&
     Spaced(ps[1..], digits || !ps[0].entry.Nothing?))
  }

  /** The end of the text: white space, then the end of the buffer or a NUL and anything. */
  ghost predicate Ending(ws: string, nul: string) { AllSpace(ws) && (nul == "" || nul[0] == '\0') }

  /** The entries looked at: an empty last one only if something stands after the last comma. */
  function Looked(ps: seq<Piece>, end: string): seq<Piece>
    requires |ps| >= 1
  {
    if |ps| > 1 && ps[|ps| - 1] == Piece("", Nothing) && end == "" then ps[..|ps| - 1] else ps
  }

  ghost predicate Fits(p: Piece, nmaskbits: nat) {
    Valid(p.entry) && BoundsOf(p.entry).lo <= BoundsOf(p.entry).hi < nmaskbits
  }

  ghost function Named(ps: seq<Piece>): set<nat>
    requires forall p :: p in ps ==> Valid(p.entry)
  {
    if |ps| == 0 then {} else Range(BoundsOf(ps[0].entry).lo, BoundsOf(ps[0].entry).hi) + Named(ps[1..])
  }

  lemma {:induction false} SpacedValid(ps: seq<Piece>, digits: bool)
    requires Spaced(ps, digits)
    ensures forall p :: p in ps ==> Valid(p.entry)
  {
    if |ps| > 0 {
      assert ps == [ps[0]] + ps[1..];
      SpacedValid(ps[1..], digits || !ps[0].entry.Nothing?);
    }
  }

  // ---- scanning one entry

  /** One character of the inner loop. */
  lemma Step(s: string, c: char, a: nat, b: nat, exp: bool, inRange: bool, total: nat)
    requires |s| > 0
    ensures
      ScanItem(s, c, a, b, exp, inRange, total)
      == if IsSpace(s[0]) then ScanItem(s[1..], s[0], a, b, exp, inRange, total)
         else if total != 0 && s[0] != '\0' && IsSpace(c) then Item.Leave(-EINVAL)
         else if s[0] == '\0' || s[0] == ',' then Item.Stop(s[1..], s[0], a, b, total)
         else if s[0] == '-' then
           if exp || inRange then Item.Leave(-EINVAL) else ScanItem(s[1..], '-', a, 0, true, true, total)
         else if !IsDigit(s[0]) then Item.Leave(-EINVAL)
         else
           var b' := 10 * b + Digit(s[0]);
           ScanItem(s[1..], s[0], if inRange then a else b', b', false, inRange, total + 1)
  {
  }

  lemma StepEnd(c: char, a: nat, b: nat, exp: bool, inRange: bool, total: nat)
    ensures ScanItem("", c, a, b, exp, inRange, total) == Item.Stop("", c, a, b, total)
  {
  }

  lemma Plain()
    ensures !IsSpace(',') && !IsSpace('-') && !IsSpace('\0') && !IsDigit('-')
    ensures forall c :: IsDigit(c) ==> !IsSpace(c)
  {
  }

  lemma {:induction false} ScanPad(pad: string, tail: string, c: char, total: nat) returns (c': char)
    requires AllSpace(pad) && (total != 0 ==> pad == "" && !IsSpace(c))
    ensures ScanItem(pad + tail, c, 0, 0, true, false, total) == ScanItem(tail, c', 0, 0, true, false, total)
    ensures total != 0 ==> !IsSpace(c')
    decreases |pad|
  {
    if |pad| == 0 {
      assert pad + tail == tail;
      c' := c;
    } else {
      assert (pad + tail)[0] == pad[0] && (pad + tail)[1..] == pad[1..] + tail;
      c' := ScanPad(pad[1..], tail, pad[0], total);
    }
  }

  /** White space and the end of the text close the entry. */
  lemma {:induction false} ScanEnd(ws: string, nul: string, c: char, a: nat, b: nat, exp: bool, inRange: bool, total: nat)
    requires Ending(ws, nul)
    ensures
      var r := ScanItem(ws + nul, c, a, b, exp, inRange, total);
      r.Stop? && r.a == a && r.b == b && (r.rest == "" || r.c == '\0')
    decreases |ws|
  {
    if |ws| == 0 {
      assert ws + nul == nul;
    } else {
      assert (ws + nul)[0] == ws[0] && (ws + nul)[1..] == ws[1..] + nul;
      ScanEnd(ws[1..], nul, ws[0], a, b, exp, inRange, total);
    }
  }

  /** How the scan stands after the text of an entry. */
  datatype After = After(c: char, exp: bool, inRange: bool, total: nat)

  lemma ScanBody(e: Entry, tail: string, c: char, total: nat) returns (f: After)
    requires Valid(e) && !(total != 0 && IsSpace(c))
    ensures
      ScanItem(EntryText(e) + tail, c, 0, 0, true, false, total)
      == ScanItem(tail, f.c, BoundsOf(e).lo, BoundsOf(e).hi, f.exp, f.inRange, f.total)
    ensures !(f.total != 0 && IsSpace(f.c)) && (f.total != 0 <==> total != 0 || !e.Nothing?)
  {
    hide DecAcc, ScanItem, IsSpace, IsDigit;
    Plain();
    match e
    case Nothing =>
      assert EntryText(e) + tail == tail;
      f := After(c, true, false, total);
    case Single(lo) =>
      ScanDecimal(lo, tail, c, 0, 0, true, false, total);
      f := After(lo[|lo| - 1], false, false, total + |lo|);
    case Span(lo, hi) =>
      var mid := "-" + (hi + tail);
      assert EntryText(e) + tail == lo + mid;
      ScanDecimal(lo, mid, c, 0, 0, true, false, total);
      assert mid[0] == '-' && mid[1..] == hi + tail;
      Step(mid, lo[|lo| - 1], DecAcc(0, lo), DecAcc(0, lo), false, false, total + |lo|);
      ScanDecimal(hi, tail, '-', DecAcc(0, lo), 0, true, true, total + |lo|);
      f := After(hi[|hi| - 1], false, true, total + |lo| + |hi|);
    case Dangling(lo) =>
      var mid := "-" + tail;
      assert EntryText(e) + tail == lo + mid;
      ScanDecimal(lo, mid, c, 0, 0, true, false, total);
      assert mid[0] == '-' && mid[1..] == tail;
      Step(mid, lo[|lo| - 1], DecAcc(0, lo), DecAcc(0, lo), false, false, total + |lo|);
      f := After('-', true, true, total + |lo|);
  }

  /** One piece followed by a comma, or by the end of the text. */
  lemma ScanPiece(p: Piece, tail: string, c: char, total: nat) returns (t: nat)
    requires Valid(p.entry) && AllSpace(p.pad) && (total != 0 ==> p.pad == "" && !IsSpace(c))
    requires |tail| > 0 && tail[0] == ','
    ensures
      ScanItem(p.pad + (EntryText(p.entry) + tail), c, 0, 0, true, false, total)
      == Item.Stop(tail[1..], ',', BoundsOf(p.entry).lo, BoundsOf(p.entry).hi, t)
    ensures t != 0 <==> total != 0 || !p.entry.Nothing?
  {
    hide EntryText, BoundsOf, Valid;
    var c' := ScanPad(p.pad, EntryText(p.entry) + tail, c, total);
    var f := ScanBody(p.entry, tail, c', total);
    t := f.total;
    assert !IsSpace(',');
  }

  lemma ScanLast(p: Piece, ws: string, nul: string, c: char, total: nat)
    requires Valid(p.entry) && AllSpace(p.pad) && (total != 0 ==> p.pad == "" && !IsSpace(c)) && Ending(ws, nul)
    ensures
      var r := ScanItem(p.pad + (EntryText(p.entry) + (ws + nul)), c, 0, 0, true, false, total);
      r.Stop? && r.a == BoundsOf(p.entry).lo && r.b == BoundsOf(p.entry).hi && (r.rest == "" || r.c == '\0')
  {
    hide EntryText, BoundsOf, Valid, Ending, ScanItem;
    var c' := ScanPad(p.pad, EntryText(p.entry) + (ws + nul), c, total);
    var f := ScanBody(p.entry, ws + nul, c', total);
    ScanEnd(ws, nul, f.c, BoundsOf(p.entry).lo, BoundsOf(p.entry).hi, f.exp, f.inRange, f.total);
  }

  // ---- the whole list

  /** The first entry looked at that does not fit decides the error, else all of them are taken. */
  ghost predicate Verdict(ps: seq<Piece>, o: ListOutcome, cpus: set<nat>, nmaskbits: nat) {
    && (forall p :: p in ps ==> Valid(p.entry))
    && (o.ret == 0 <==> forall p :: p in ps ==> Fits(p, nmaskbits))
    && (o.ret == 0 ==> o.cpus == cpus + Named(ps))
    && (o.ret != 0 ==> exists k: nat :: FirstMisfit(ps, k, nmaskbits) && o.ret == ErrorOf(ps[k]))
  }

  ghost predicate FirstMisfit(ps: seq<Piece>, k: nat, nmaskbits: nat) {
    k < |ps| && Valid(ps[k].entry) && !Fits(ps[k], nmaskbits) && forall j :: 0 <= j < k ==> Fits(ps[j], nmaskbits)
  }

  ghost function ErrorOf(p: Piece): int
    requires Valid(p.entry)
  {
    if BoundsOf(p.entry).lo > BoundsOf(p.entry).hi then -EINVAL else -ERANGE
  }

  lemma VerdictNow(ps: seq<Piece>, o: ListOutcome, cpus: set<nat>, nmaskbits: nat)
    requires |ps| >= 1 && (forall p :: p in ps ==> Valid(p.entry))
    requires !Fits(ps[0], nmaskbits) && o.ret == ErrorOf(ps[0])
    ensures Verdict(ps, o, cpus, nmaskbits)
  {
    hide Fits, Named, BoundsOf, Valid;
    assert FirstMisfit(ps, 0, nmaskbits);
    assert ps[0] in ps;
  }

  lemma VerdictOne(p: Piece, o: ListOutcome, cpus: set<nat>, nmaskbits: nat)
    requires Fits(p, nmaskbits) && o == ListOutcome(0, cpus + Range(BoundsOf(p.entry).lo, BoundsOf(p.entry).hi))
    ensures Verdict([p], o, cpus, nmaskbits)
  {
    hide BoundsOf, Valid;
    assert Named([p]) == Range(BoundsOf(p.entry).lo, BoundsOf(p.entry).hi) + Named([p][1..]);
  }

  lemma VerdictMore(p: Piece, rest: seq<Piece>, o: ListOutcome, cpus: set<nat>, nmaskbits: nat)
    requires Fits(p, nmaskbits)
    requires Verdict(rest, o, cpus + Range(BoundsOf(p.entry).lo, BoundsOf(p.entry).hi), nmaskbits)
    ensures Verdict([p] + rest, o, cpus, nmaskbits)
  {
    hide Fits, BoundsOf, Valid;
    var all := [p] + rest;
    FitsValid(p, nmaskbits);
    assert all[0] == p && all[1..] == rest;
    assert forall x :: x in all <==> x == p || x in rest;
    if o.ret == 0 {
      assert cpus + Range(BoundsOf(p.entry).lo, BoundsOf(p.entry).hi) + Named(rest) == cpus + Named(all);
    } else {
      var k: nat :| FirstMisfit(rest, k, nmaskbits) && o.ret == ErrorOf(rest[k]);
      assert all[k + 1] == rest[k];
      forall j | 0 <= j < k + 1
        ensures Fits(all[j], nmaskbits)
      {
        if j > 0 { assert all[j] == rest[j - 1]; }
      }
      assert FirstMisfit(all, k + 1, nmaskbits);
    }
  }

  lemma FitsValid(p: Piece, nmaskbits: nat)
    requires Fits(p, nmaskbits)
    ensures Valid(p.entry)
  {
  }

  lemma PiecesEmpty(ps: seq<Piece>)
    requires |ps| >= 1 && (forall p :: p in ps ==> Valid(p.entry))
    ensures PiecesText(ps) == "" <==> ps == [Piece("", Nothing)]
  {
    assert ps[0] in ps;
  }

  lemma {:induction false} ParsePieces(ps: seq<Piece>, ws: string, nul: string, c: char, total: nat, cpus: set<nat>, nmaskbits: nat)
    requires |ps| >= 1 && Spaced(ps, total != 0) && Ending(ws, nul) && (total != 0 ==> !IsSpace(c))
    ensures Verdict(Looked(ps, ws + nul), ListLoop(PiecesText(ps) + (ws + nul), c, total, cpus, nmaskbits), cpus, nmaskbits)
    decreases |ps|
  {
    hide ScanItem, EntryText, BoundsOf, Valid, Verdict, Ending, IsSpace, Looked, PiecesText, AllSpace;
    SpacedValid(ps, total != 0);
    var p, end := ps[0], ws + nul;
    var s := PiecesText(ps) + end;
    var o := ListLoop(s, c, total, cpus, nmaskbits);
    if |ps| == 1 {
      assert ps == [p];
      TextOne(p, end);
      ScanLast(p, ws, nul, c, total);
      LookedOne(ps, end);
      if Fits(p, nmaskbits) { VerdictOne(p, o, cpus, nmaskbits); } else { VerdictNow(ps, o, cpus, nmaskbits); }
    } else {
      var more := ps[1..];
      var tail := "," + (PiecesText(more) + end);
      assert ps == [p] + more;
      TextCons(p, more, end);
      var t := ScanPiece(p, tail, c, total);
      assert tail[1..] == PiecesText(more) + end;
      SpacedValid(more, t != 0);
      PiecesEmpty(more);
      LookedMore(ps, end);
      if !Fits(p, nmaskbits) {
        VerdictNow(Looked(ps, end), o, cpus, nmaskbits);
      } else if more == [Piece("", Nothing)] && end == "" {
        VerdictOne(p, o, cpus, nmaskbits);
      } else {
        assert !IsSpace(',') by { CommaIsPlain(); }
        var cpus' := cpus + Range(BoundsOf(p.entry).lo, BoundsOf(p.entry).hi);
        ParsePieces(more, ws, nul, ',', t, cpus', nmaskbits);
        VerdictMore(p, Looked(more, end), o, cpus, nmaskbits);
      }
    }
  }

  lemma LookedOne(ps: seq<Piece>, end: string)
    requires |ps| == 1
    ensures Looked(ps, end) == ps == [ps[0]]
  {
  }

  lemma LookedMore(ps: seq<Piece>, end: string)
    requires |ps| > 1
    ensures |Looked(ps, end)| >= 1 && Looked(ps, end)[0] == ps[0] && (forall p :: p in Looked(ps, end) ==> p in ps)
    ensures if ps[1..] == [Piece("", Nothing)] && end == "" then Looked(ps, end) == [ps[0]]
            else Looked(ps, end) == [ps[0]] + Looked(ps[1..], end)
  {
  }

  /**
   __bitmap_parselist on every text of that form: it returns 0 exactly when each entry looked at has its
   bounds in order and below nmaskbits, and then sets exactly the named bits; otherwise the first bad
   entry decides the error. Bit 0 is set exactly when some entry looked at is empty or starts at 0.
   */
  lemma ParseListWellFormed(ps: seq<Piece>, ws: string, nul: string, nmaskbits: nat)
    requires |ps| >= 1 && Spaced(ps, false) && Ending(ws, nul)
    ensures
      var o := ParseList(PiecesText(ps) + (ws + nul), nmaskbits);
      && Verdict(Looked(ps, ws + nul), o, {}, nmaskbits)
      && (o.ret == 0 ==> (0 in o.cpus <==> exists p :: p in Looked(ps, ws + nul) && StartsAtZero(p)))
  {
    hide PiecesText, Looked, ListLoop, Fits, Ending;
    ParsePieces(ps, ws, nul, '\0', 0, {}, nmaskbits);
    var o := ParseList(PiecesText(ps) + (ws + nul), nmaskbits);
    if o.ret == 0 {
      assert o.cpus == Named(Looked(ps, ws + nul));
      NamesZero(Looked(ps, ws + nul), nmaskbits);
    }
  }

  ghost predicate StartsAtZero(p: Piece) { Valid(p.entry) && BoundsOf(p.entry).lo == 0 }

  lemma {:induction false} NamesZero(ps: seq<Piece>, nmaskbits: nat)
    requires forall p :: p in ps ==> Valid(p.entry) && Fits(p, nmaskbits)
    ensures 0 in Named(ps) <==> exists p :: p in ps && StartsAtZero(p)
  {
    hide BoundsOf, Valid;
    if |ps| > 0 {
      assert ps == [ps[0]] + ps[1..];
      NamesZero(ps[1..], nmaskbits);
      var r := BoundsOf(ps[0].entry);
      assert ps[0] in ps && Fits(ps[0], nmaskbits);
      assert 0 in Range(r.lo, r.hi) <==> r.lo == 0 by { assert Between(r.lo, 0, r.hi) <==> r.lo == 0; }
      assert StartsAtZero(ps[0]) <==> r.lo == 0;
      if StartsAtZero(ps[0]) { assert exists p :: p in ps && StartsAtZero(p); }
    }
  }

  // ---- nothing else is accepted

  /** After white space behind a digit only more white space and the end can follow. */
  lemma {:induction false} OnlyEnd(s: string, c: char, a: nat, b: nat, exp: bool, inRange: bool, total: nat) returns (ws: string, nul: string)
    requires total != 0 && IsSpace(c) && ScanItem(s, c, a, b, exp, inRange, total).Stop?
    ensures s == ws + nul && Ending(ws, nul)
    ensures var r := ScanItem(s, c, a, b, exp, inRange, total); r.rest == "" || r.c == '\0'
    decreases |s|
  {
    if |s| > 0 && IsSpace(s[0]) {
      ws, nul := OnlyEnd(s[1..], s[0], a, b, exp, inRange, total);
      ws := [s[0]] + ws;
    } else {
      ws, nul := "", s;
    }
  }

  /** How an entry's text ends: with a comma and the rest, or with the end of the text. */
  ghost predicate Closed(after: string, ws: string, nul: string, r: Item) {
    r.Stop? && ((r.c == ',' && after == "," + r.rest) || (after == ws + nul && Ending(ws, nul) && (r.rest == "" || r.c == '\0')))
  }

  /** Digits, and then a dash, a comma or the end. */
  lemma {:induction false} DigitsShape(s: string, c: char, a: nat, b: nat, inRange: bool, total: nat)
      returns (g: string, dash: bool, after: string, ws: string, nul: string, a': nat, t: nat)
    requires total != 0 && !IsSpace(c) && ScanItem(s, c, a, b, false, inRange, total).Stop?
    ensures AllDigits(g) && s == g + (if dash then "-" + after else after) && (dash ==> !inRange) && t != 0
    ensures dash ==> ScanItem(s, c, a, b, false, inRange, total) == ScanItem(after, '-', a', 0, true, true, t)
    ensures !dash ==> Closed(after, ws, nul, ScanItem(s, c, a, b, false, inRange, total))
    decreases |s|
  {
    hide ScanItem, IsSpace, IsDigit;
    Plain();
    g, dash, after, ws, nul, a', t := "", false, s, "", s, a, total;
    if |s| == 0 {
      StepEnd(c, a, b, false, inRange, total);
    } else {
      Step(s, c, a, b, false, inRange, total);
      assert s == [s[0]] + s[1..];
      if IsSpace(s[0]) {
        ws, nul := OnlyEnd(s[1..], s[0], a, b, false, inRange, total);
        ws := [s[0]] + ws;
      } else if s[0] == '-' {
        dash, after := true, s[1..];
      } else if IsDigit(s[0]) {
        var b' := 10 * b + Digit(s[0]);
        g, dash, after, ws, nul, a', t := DigitsShape(s[1..], s[0], if inRange then a else b', b', inRange, total + 1);
        g := [s[0]] + g;
      }
    }
  }

  /** After the dash: an upper bound, or none. */
  lemma DashShape(s: string, lo: string, a: nat, total: nat) returns (e: Entry, after: string, ws: string, nul: string)
    requires Digits(lo) && total != 0 && ScanItem(s, '-', a, 0, true, true, total).Stop?
    ensures Valid(e) && !e.Nothing? && lo + ("-" + s) == EntryText(e) + after
    ensures Closed(after, ws, nul, ScanItem(s, '-', a, 0, true, true, total))
  {
    hide ScanItem, IsSpace, IsDigit;
    Plain();
    e, after, ws, nul := Dangling(lo), s, "", s;
    if |s| == 0 {
      StepEnd('-', a, 0, true, true, total);
    } else {
      Step(s, '-', a, 0, true, true, total);
      assert s == [s[0]] + s[1..];
      if IsSpace(s[0]) {
        ws, nul := OnlyEnd(s[1..], s[0], a, 0, true, true, total);
        ws := [s[0]] + ws;
      } else if IsDigit(s[0]) {
        var g, dash, a', t;
        g, dash, after, ws, nul, a', t := DigitsShape(s[1..], s[0], a, Digit(s[0]), true, total + 1);
        e := Span(lo, [s[0]] + g);
      }
    }
  }

  /** The text of one item, whatever it is, if the scan does not fail. */
  lemma {:induction false} ItemShape(s: string, c: char, total: nat) returns (p: Piece, after: string, ws: string, nul: string)
    requires (total != 0 ==> !IsSpace(c)) && ScanItem(s, c, 0, 0, true, false, total).Stop?
    ensures Valid(p.entry) && AllSpace(p.pad) && (total != 0 ==> p.pad == "")
    ensures s == p.pad + (EntryText(p.entry) + after)
    ensures Closed(after, ws, nul, ScanItem(s, c, 0, 0, true, false, total))
    decreases |s|
  {
    hide ScanItem, IsSpace, IsDigit;
    Plain();
    p, after, ws, nul := Piece("", Nothing), s, "", s;
    if |s| == 0 {
      StepEnd(c, 0, 0, true, false, total);
    } else {
      Step(s, c, 0, 0, true, false, total);
      assert s == [s[0]] + s[1..];
      if IsSpace(s[0]) {
        if total != 0 {
          ws, nul := OnlyEnd(s[1..], s[0], 0, 0, true, false, total);
          ws := [s[0]] + ws;
        } else {
          p, after, ws, nul := ItemShape(s[1..], s[0], 0);
          p := p.(pad := [s[0]] + p.pad);
        }
      } else if IsDigit(s[0]) {
        p, after, ws, nul := NumberShape(s, total);
      }
    }
  }

  lemma NumberShape(s: string, total: nat) returns (p: Piece, after: string, ws: string, nul: string)
    requires |s| > 0 && IsDigit(s[0]) && !IsSpace(s[0])
    requires ScanItem(s[1..], s[0], Digit(s[0]), Digit(s[0]), false, false, total + 1).Stop?
    ensures Valid(p.entry) && p.pad == "" && s == EntryText(p.entry) + after
    ensures Closed(after, ws, nul, ScanItem(s[1..], s[0], Digit(s[0]), Digit(s[0]), false, false, total + 1))
  {
    hide ScanItem, IsSpace, IsDigit;
    var d := Digit(s[0]);
    var g, dash, rest, a', t;
    g, dash, rest, ws, nul, a', t := DigitsShape(s[1..], s[0], d, d, false, total + 1);
    var lo := [s[0]] + g;
    assert s == [s[0]] + s[1..];
    if dash {
      var e;
      e, after, ws, nul := DashShape(rest, lo, a', t);
      p := Piece("", e);
      assert s == lo + ("-" + rest);
    } else {
      p, after := Piece("", Single(lo)), rest;
      assert s == lo + rest;
    }
  }

  /** Whatever the loop accepts has the form. */
  lemma {:induction false} LoopForm(s: string, c: char, total: nat, cpus: set<nat>, nmaskbits: nat)
      returns (ps: seq<Piece>, ws: string, nul: string)
    requires (total != 0 ==> !IsSpace(c)) && ListLoop(s, c, total, cpus, nmaskbits).ret == 0
    ensures |ps| >= 1 && Spaced(ps, total != 0) && Ending(ws, nul) && s == PiecesText(ps) + (ws + nul)
    decreases |s|
  {
    hide ScanItem, EntryText, Valid, IsSpace, Spaced, PiecesText, Ending, AllSpace;
    Plain();
    var item := ScanItem(s, c, 0, 0, true, false, total);
    var p, after;
    p, after, ws, nul := ItemShape(s, c, total);
    if item.c == ',' && after == "," + item.rest {
      var t := ScanPiece(p, after, c, total);
      assert after[1..] == item.rest;
      var rest;
      if item.rest == "" {
        rest, ws, nul := [Piece("", Nothing)], "", "";
        EmptyLast(total != 0 || !p.entry.Nothing?);
      } else {
        rest, ws, nul := LoopForm(item.rest, ',', t, cpus + Range(item.a, item.b), nmaskbits);
      }
      ps := [p] + rest;
      SpacedCons(p, rest, total != 0);
      TextCons(p, rest, ws + nul);
    } else {
      ps := [p];
      SpacedCons(p, [], total != 0);
      assert [p] + [] == ps;
      TextOne(p, ws + nul);
    }
  }

  lemma EmptyLast(digits: bool)
    ensures Spaced([Piece("", Nothing)], digits) && PiecesText([Piece("", Nothing)]) + ("" + "") == "" && Ending("", "")
  {
    assert [Piece("", Nothing)][1..] == [];
  }

  lemma TextOne(p: Piece, end: string)
    ensures PiecesText([p]) + end == p.pad + (EntryText(p.entry) + end)
  {
    hide EntryText;
    assert PiecesText([p]) == p.pad + (EntryText(p.entry) + "");
  }

  lemma TextCons(p: Piece, rest: seq<Piece>, end: string)
    requires |rest| >= 1
    ensures PiecesText([p] + rest) + end == p.pad + (EntryText(p.entry) + ("," + (PiecesText(rest) + end)))
  {
    hide EntryText, PiecesText;
    TextUnfold(p, rest);
    Regroup(p.pad, EntryText(p.entry), ",", PiecesText(rest), end);
  }

  lemma TextUnfold(p: Piece, rest: seq<Piece>)
    requires |rest| >= 1
    ensures PiecesText([p] + rest) == p.pad + (EntryText(p.entry) + ("," + PiecesText(rest)))
  {
    hide EntryText;
    assert ([p] + rest)[1..] == rest;
  }

  lemma Regroup(a: string, b: string, c: string, d: string, e: string)
    ensures (a + (b + (c + d))) + e == a + (b + (c + (d + e)))
  {
  }

  lemma SpacedCons(p: Piece, rest: seq<Piece>, digits: bool)
    requires Valid(p.entry) && AllSpace(p.pad) && (digits ==> p.pad == "")
    requires rest == [] || Spaced(rest, digits || !p.entry.Nothing?)
    ensures Spaced([p] + rest, digits)
  {
    hide Valid;
    assert ([p] + rest)[1..] == rest;
  }

  /** No other text is accepted: a text for which 0 is returned is of the form of ParseListWellFormed. */
  lemma AcceptedForm(s: string, nmaskbits: nat) returns (ps: seq<Piece>, ws: string, nul: string)
    requires ParseList(s, nmaskbits).ret == 0
    ensures |ps| >= 1 && Spaced(ps, false) && Ending(ws, nul) && s == PiecesText(ps) + (ws + nul)
    ensures forall p :: p in Looked(ps, ws + nul) ==> Fits(p, nmaskbits)
  {
    hide ListLoop, PiecesText, Spaced;
    ps, ws, nul := LoopForm(s, '\0', 0, {}, nmaskbits);
    ParseListWellFormed(ps, ws, nul, nmaskbits);
  }

  /** Empty items and dangling dashes at work: what follows the last comma decides. */
  lemma ListExamples()
    ensures ParseList("5,", 64) == ListOutcome(0, {5})
    ensures ParseList("5, ", 64) == ListOutcome(0, {0, 5})
    ensures ParseList("0-", 64) == ListOutcome(0, {0})
    ensures ParseList("5-", 64).ret == -EINVAL
  {
    assert Range(0, 0) == {0} && Range(5, 5) == {5};
    assert "5,"[1..] == "," && ","[1..] == "";
    assert "5, "[1..] == ", " && ", "[1..] == " " && " "[1..] == "";
    assert "0-"[1..] == "-" && "5-"[1..] == "-" && "-"[1..] == "";
    assert {5} + {0} == {0, 5};
    assert ScanItem("5-", '\0', 0, 0, true, false, 0) == ScanItem("-", '5', 5, 5, false, false, 1);
    assert ScanItem("-", '5', 5, 5, false, false, 1) == ScanItem("", '-', 5, 0, true, true, 1);
  }
}
