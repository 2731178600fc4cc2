/**
 The hexadecimal form of a bitmap: bitmap_scnprintf and __bitmap_parse.
 Text is a list of comma-separated groups of hex digits, 32 bits a group, the
 most significant group first.
 */
module HexText {
  import opened Bits

  const EINVAL := 22
  const EOVERFLOW := 75

  // ---- characters (C locale)

  predicate IsSpace(c: char) { c == ' ' || 9 <= c as int <= 13 }

  predicate IsDigit(c: char) { '0' <= c <= '9' }

  predicate IsXDigit(c: char) { IsDigit(c) || 'a' <= c <= 'f' || 'A' <= c <= 'F' }

  function ToUpper(c: char): char {
    if 'a' <= c <= 'z' then (c as int - 32) as char else c
  }

  /** The unhex macro. */
  function Unhex(c: char): (d: nat)
    requires IsXDigit(c)
    ensures d < 16
  {
    if IsDigit(c) then c as int - '0' as int else ToUpper(c) as int - 'A' as int + 10
  }

  function HexDigit(d: nat): (c: char)
    requires d < 16
    ensures IsXDigit(c) && Unhex(c) == d
  {
    if d < 10 then ('0' as int + d) as char else ('a' as int + (d - 10)) as char
  }

  ghost predicate AllSpace(s: string) { forall i :: 0 <= i < |s| ==> IsSpace(s[i]) }
  ghost predicate AllHex(s: string) { forall i :: 0 <= i < |s| ==> IsXDigit(s[i]) }

  // ---- what a text of groups means

  /** The digits of g appended to the number acc. */
  ghost function Acc(acc: nat, g: string): nat
    requires AllHex(g)
    decreases |g|
  {
    if |g| == 0 then acc else Acc(16 * acc + Unhex(g[0]), g[1..])
  }

  ghost function GroupVal(g: string): nat
    requires AllHex(g)
  {
    Acc(0, g)
  }

  ghost predicate Groups(gs: seq<string>) {
    |gs| >= 1 && forall i :: 0 <= i < |gs| ==> |gs[i]| >= 1 && AllHex(gs[i])
  }

  ghost predicate AllHexGroups(gs: seq<string>) {
    forall i :: 0 <= i < |gs| ==> |gs[i]| >= 1 && AllHex(gs[i])
  }

  ghost predicate GroupsFit(gs: seq<string>)
    requires AllHexGroups(gs)
  {
    forall i :: 0 <= i < |gs| ==> GroupVal(gs[i]) < 0x1_0000_0000
  }

  /** The groups of gs appended, 32 bits each, to the number acc. */
  ghost function NumAcc(acc: nat, gs: seq<string>): nat
    requires AllHexGroups(gs)
    decreases |gs|
  {
    if |gs| == 0 then acc else NumAcc(0x1_0000_0000 * acc + GroupVal(gs[0]), gs[1..])
  }

  ghost function Number(gs: seq<string>): nat
    requires AllHexGroups(gs)
  {
    NumAcc(0, gs)
  }

  function Join(gs: seq<string>): string {
    if |gs| == 0 then "" else if |gs| == 1 then gs[0] else gs[0] + "," + Join(gs[1..])
  }

  // ---- the parser as a function of its input

  datatype Scan =
    | Stop(rest: string, c: char, chunk: nat, ndigits: nat, totaldigits: nat)
    | Leave(code: int)

  /** The inner loop: one chunk, starting with the previous character c. */
  function ScanChunk(s: string, c: char, chunk: nat, ndigits: nat, totaldigits: nat): (r: Scan)
    ensures r.Stop? ==> |r.rest| <= |s| && r.ndigits >= ndigits
    ensures r.Stop? && r.ndigits > ndigits ==> |r.rest| < |s|
  {
    if |s| == 0 then Stop(s, c, chunk, ndigits, totaldigits)
    else if IsSpace(s[0]) then ScanChunk(s[1..], s[0], chunk, ndigits, totaldigits)
    else if totaldigits != 0 && s[0] != '\0' && IsSpace(c) then Leave(0)
    else if s[0] == '\0' || s[0] == ',' then Stop(s[1..], s[0], chunk, ndigits, totaldigits)
    else if !IsXDigit(s[0]) then Leave(-EINVAL)
    else if chunk >= 0x1000_0000 then Leave(-EOVERFLOW)
    else ScanChunk(s[1..], s[0], 16 * chunk + Unhex(s[0]), ndigits + 1, totaldigits + 1)
  }

  datatype Outcome = Outcome(ret: int, value: nat)

  /** The number of bits needed to hold v; fls. */
  function BitLength(v: nat): nat
    decreases v
  {
    if v == 0 then 0 else 1 + BitLength(v / 2)
  }

  /** The outer loop: `value` is what the mask denotes so far. */
  function ParseLoop(s: string, c: char, totaldigits: nat, nchunks: nat, nbits: nat, value: nat, nmaskbits: nat): Outcome
    decreases |s|
  {
    match ScanChunk(s, c, 0, 0, totaldigits)
    case Leave(code) => Outcome(code, value)
    case Stop(rest, c', chunk, ndigits, total) =>
      if ndigits == 0 then Outcome(-EINVAL, value)
      else if nchunks == 0 && chunk == 0 then
        if |rest| != 0 && c' == ',' then ParseLoop(rest, c', total, nchunks, nbits, value, nmaskbits)
        else Outcome(0, value)
      else
        var value' := (0x1_0000_0000 * value) % Pow2(nmaskbits) + chunk;
        var nbits' := nbits + if nchunks == 0 then BitLength(chunk) else 32;
        if nbits' > nmaskbits then Outcome(-EOVERFLOW, value')
        else if |rest| != 0 && c' == ',' then ParseLoop(rest, c', total, nchunks + 1, nbits', value', nmaskbits)
        else Outcome(0, value')
  }

  function Parse(s: string, nmaskbits: nat): Outcome {
    ParseLoop(s, '\0', 0, 0, 0, 0, nmaskbits)
  }

  // ---- scanning well-formed text

  lemma {:induction false} AccGrows(acc: nat, g: string)
    requires AllHex(g)
    ensures Acc(acc, g) >= acc
    ensures |g| >= 1 ==> Acc(acc, g) >= 16 * acc
    decreases |g|
  {
    if |g| >= 1 { AccGrows(16 * acc + Unhex(g[0]), g[1..]); }
  }

  /** Digits are consumed until the group no longer fits in 32 bits. */
  lemma {:induction false} ScanDigits(g: string, tail: string, c: char, chunk: nat, nd: nat, total: nat)
    requires AllHex(g) && chunk < 0x1_0000_0000
    requires |g| >= 1 ==> !(total != 0 && IsSpace(c))
    ensures ScanChunk(g + tail, c, chunk, nd, total)
         == if Acc(chunk, g) < 0x1_0000_0000
            then ScanChunk(tail, if |g| == 0 then c else g[|g| - 1], Acc(chunk, g), nd + |g|, total + |g|)
            else Leave(-EOVERFLOW)
    decreases |g|
  {
    if |g| == 0 {
      assert g + tail == tail;
    } else {
      assert (g + tail)[0] == g[0] && (g + tail)[1..] == g[1..] + tail;
      AccGrows(chunk, g);
      if chunk < 0x1000_0000 {
        ScanDigits(g[1..], tail, g[0], 16 * chunk + Unhex(g[0]), nd + 1, total + 1);
      }
    }
  }

  /** White space before the first digit is skipped. */
  lemma {:induction false} ScanLeading(ws: string, tail: string, c: char) returns (c': char)
    requires AllSpace(ws)
    ensures ScanChunk(ws + tail, c, 0, 0, 0) == ScanChunk(tail, c', 0, 0, 0)
    decreases |ws|
  {
    if |ws| == 0 {
      assert ws + tail == tail;
      c' := c;
    } else {
      assert (ws + tail)[0] == ws[0] && (ws + tail)[1..] == ws[1..] + tail;
      c' := ScanLeading(ws[1..], tail, ws[0]);
    }
  }

  /** White space after the last digit is skipped, and the input ends. */
  lemma {:induction false} ScanTrailing(ws: string, c: char, chunk: nat, nd: nat, total: nat)
    requires AllSpace(ws) && c != ','
    ensures
      var r := ScanChunk(ws, c, chunk, nd, total);
      r.Stop? && r.rest == [] && r.c != ',' && r.chunk == chunk && r.ndigits == nd && r.totaldigits == total
    decreases |ws|
  {
    if |ws| > 0 { ScanTrailing(ws[1..], ws[0], chunk, nd, total); }
  }

  lemma {:induction false} NumAccGrows(acc: nat, gs: seq<string>)
    requires AllHexGroups(gs)
    ensures NumAcc(acc, gs) >= acc
    decreases |gs|
  {
    if |gs| > 0 { NumAccGrows(0x1_0000_0000 * acc + GroupVal(gs[0]), gs[1..]); }
  }

  lemma {:induction false} BitLengthBounds(v: nat)
    ensures v < Pow2(BitLength(v))
    ensures v > 0 ==> BitLength(v) > 0 && v >= Pow2(BitLength(v) - 1)
  {
    if v > 0 { BitLengthBounds(v / 2); }
  }

  /** A number of exactly b bits is below 2^n iff b <= n. */
  lemma BitsFit(v: nat, b: nat, n: nat)
    requires b > 0 && Pow2(b - 1) <= v < Pow2(b)
    ensures v < Pow2(n) <==> b <= n
  {
    if b <= n { Pow2Mono(b, n); } else { Pow2Mono(n, b - 1); }
  }

  /** What the loop knows about the number read so far. */
  ghost predicate LoopState(nchunks: nat, nbits: nat, value: nat, nmaskbits: nat) {
    if nchunks == 0 then nbits == 0 && value == 0
    else 0 < nbits <= nmaskbits && Pow2(nbits - 1) <= value < Pow2(nbits)
  }

  /** One nonzero chunk: the bit count tells exactly whether the longer number fits. */
  lemma ChunkFits(nchunks: nat, nbits: nat, value: nat, chunk: nat, nmaskbits: nat)
    requires LoopState(nchunks, nbits, value, nmaskbits)
    requires chunk < 0x1_0000_0000 && (nchunks == 0 ==> chunk > 0)
    ensures
      var nbits' := nbits + if nchunks == 0 then BitLength(chunk) else 32;
      var exact := 0x1_0000_0000 * value + chunk;
      (nbits' <= nmaskbits <==> exact < Pow2(nmaskbits)) &&
      (nbits' <= nmaskbits ==>
         (0x1_0000_0000 * value) % Pow2(nmaskbits) + chunk == exact && LoopState(nchunks + 1, nbits', exact, nmaskbits))
  {
    hide Pow2, BitLength;
    var nbits' := nbits + if nchunks == 0 then BitLength(chunk) else 32;
    var exact := 0x1_0000_0000 * value + chunk;
    Pow2Values();
    if nchunks == 0 {
      BitLengthBounds(chunk);
      DivModUnique(0, Pow2(nmaskbits), 0, 0);
    } else {
      Pow2Add(nbits, 32);
      Pow2Add(nbits - 1, 32);
    }
    BitsFit(exact, nbits', nmaskbits);
    if nbits' <= nmaskbits {
      DivModUnique(0x1_0000_0000 * value, Pow2(nmaskbits), 0, 0x1_0000_0000 * value);
    }
  }

  /** The result that the number `n` calls for. */
  ghost predicate Verdict(o: Outcome, gs: seq<string>, n: nat, nmaskbits: nat)
    requires AllHexGroups(gs)
  {
    if GroupsFit(gs) && n < Pow2(nmaskbits) then o == Outcome(0, n) else o.ret == -EOVERFLOW
  }

  lemma {:induction false} LoopOnGroups(gs: seq<string>, ws: string, c: char, total: nat, nchunks: nat, nbits: nat, value: nat, nmaskbits: nat)
    requires Groups(gs) && AllSpace(ws)
    requires !(total != 0 && IsSpace(c))
    requires LoopState(nchunks, nbits, value, nmaskbits)
    ensures Verdict(ParseLoop(Join(gs) + ws, c, total, nchunks, nbits, value, nmaskbits), gs, NumAcc(value, gs), nmaskbits)
    decreases |gs|
  {
    hide Pow2, BitLength, GroupVal, ScanChunk, Join, IsSpace;
    var g, more := gs[0], gs[1..];
    ScanGroup(gs, ws, c, total);
    CommaIsPlain();
    var chunk := GroupVal(g);
    if chunk < 0x1_0000_0000 {
      FitTail(gs);
      var exact := 0x1_0000_0000 * value + chunk;
      assert NumAcc(value, gs) == NumAcc(exact, more);
      NumAccGrows(exact, more);
      if nchunks == 0 && chunk == 0 {
        if |gs| > 1 {
          LoopOnGroups(more, ws, ',', total + |g|, 0, 0, 0, nmaskbits);
        }
      } else {
        ChunkFits(nchunks, nbits, value, chunk, nmaskbits);
        var nbits' := nbits + if nchunks == 0 then BitLength(chunk) else 32;
        if |gs| > 1 && nbits' <= nmaskbits {
          LoopOnGroups(more, ws, ',', total + |g|, nchunks + 1, nbits', exact, nmaskbits);
        }
      }
    }
  }

  /** The inner loop on the first of several groups. */
  lemma ScanGroup(gs: seq<string>, ws: string, c: char, total: nat)
    requires Groups(gs) && AllSpace(ws)
    requires !(total != 0 && IsSpace(c))
    ensures
      var g, more := gs[0], gs[1..];
      var r := ScanChunk(Join(gs) + ws, c, 0, 0, total);
      if GroupVal(g) >= 0x1_0000_0000 then r == Leave(-EOVERFLOW)
      else
        r.Stop? && r.chunk == GroupVal(g) && r.ndigits == |g| && r.totaldigits == total + |g| &&
        if |gs| == 1 then r.rest == [] && r.c != ','
        else r.rest == Join(more) + ws && |r.rest| >= 1 && r.c == ','
  {
    hide Acc, IsXDigit, IsSpace;
    var g, more := gs[0], gs[1..];
    var tail := if |gs| == 1 then ws else "," + (Join(more) + ws);
    assert Join(gs) + ws == g + tail;
    ScanDigits(g, tail, c, 0, 0, total);
    var last := g[|g| - 1];
    DigitIsPlain(last);
    CommaIsPlain();
    if GroupVal(g) < 0x1_0000_0000 {
      if |gs| == 1 {
        ScanTrailing(ws, last, GroupVal(g), |g|, total + |g|);
      } else {
        assert tail[0] == ',' && tail[1..] == Join(more) + ws;
        JoinNonempty(more);
      }
    }
  }

  lemma DigitIsPlain(c: char)
    requires IsXDigit(c)
    ensures !IsSpace(c) && c != ',' && c != '\0'
  {
  }

  lemma CommaIsPlain()
    ensures !IsSpace(',')
  {
  }

  lemma FitTail(gs: seq<string>)
    requires Groups(gs) && GroupVal(gs[0]) < 0x1_0000_0000
    ensures GroupsFit(gs) <==> GroupsFit(gs[1..])
  {
    hide Acc;
    if GroupsFit(gs[1..]) {
      forall i | 0 <= i < |gs|
        ensures GroupVal(gs[i]) < 0x1_0000_0000
      {
        if i > 0 { assert GroupVal(gs[1..][i - 1]) < 0x1_0000_0000; }
      }
    }
  }

  lemma JoinNonempty(gs: seq<string>)
    requires Groups(gs)
    ensures |Join(gs)| >= 1
  {
    assert |gs[0]| >= 1;
  }

  /**
   __bitmap_parse on well-formed text: success exactly when every group fits in 32 bits
   and the number fits in the mask, which then denotes it; -EOVERFLOW otherwise.
   */
  lemma ParseWellFormed(lead: string, gs: seq<string>, trail: string, nmaskbits: nat)
    requires AllSpace(lead) && Groups(gs) && AllSpace(trail)
    ensures Verdict(Parse(lead + Join(gs) + trail, nmaskbits), gs, Number(gs), nmaskbits)
  {
    hide ScanChunk, NumAcc;
    var body := Join(gs) + trail;
    assert lead + Join(gs) + trail == lead + body;
    var c := ScanLeading(lead, body, '\0');
    LoopOnGroups(gs, trail, c, 0, 0, 0, 0, nmaskbits);
    assert Parse(lead + body, nmaskbits) == ParseLoop(body, c, 0, 0, 0, 0, nmaskbits);
  }

  // ---- the printer as a function of the number

  function HexDigits(v: nat): (h: string)
    ensures |h| >= 1
  {
    if v < 16 then [HexDigit(v)] else HexDigits(v / 16) + [HexDigit(v % 16)]
  }

  /** printf's "%0*lx": zeros up to the width, then the digits. */
  function PadHex(v: nat, width: nat): string {
    var h := HexDigits(v);
    if |h| < width then seq(width - |h|, _ => '0') + h else h
  }

  lemma {:induction false} AccSnoc(acc: nat, g: string, c: char)
    requires AllHex(g) && IsXDigit(c)
    ensures AllHex(g + [c])
    ensures Acc(acc, g + [c]) == 16 * Acc(acc, g) + Unhex(c)
    decreases |g|
  {
    if |g| == 0 {
      assert g + [c] == [c];
      assert Acc(16 * acc + Unhex(c), [c][1..]) == 16 * acc + Unhex(c);
    } else {
      assert (g + [c])[1..] == g[1..] + [c];
      AccSnoc(16 * acc + Unhex(g[0]), g[1..], c);
    }
  }

  lemma {:induction false} HexDigitsValue(v: nat)
    ensures AllHex(HexDigits(v)) && GroupVal(HexDigits(v)) == v
  {
    if v >= 16 {
      HexDigitsValue(v / 16);
      AccSnoc(0, HexDigits(v / 16), HexDigit(v % 16));
    } else {
      assert Acc(0, [HexDigit(v)]) == Acc(v, [HexDigit(v)][1..]);
    }
  }

  lemma {:induction false} HexDigitsLength(v: nat, n: nat)
    requires n >= 1 && v < Pow2(4 * n)
    ensures |HexDigits(v)| <= n
    decreases n
  {
    if v >= 16 {
      assert Pow2(4) == 16;
      assert n > 1;
      assert Pow2(4 * n) == 16 * Pow2(4 * (n - 1)) by { Pow2Add(4, 4 * (n - 1)); }
      HexDigitsLength(v / 16, n - 1);
    }
  }

  lemma {:induction false} LeadingZeros(n: nat, h: string)
    requires AllHex(h)
    ensures
      var zs := seq(n, _ => '0');
      AllHex(zs + h) && GroupVal(zs + h) == GroupVal(h)
  {
    var zs := seq(n, _ => '0');
    if n == 0 {
      assert zs + h == h;
    } else {
      LeadingZeros(n - 1, h);
      var zs' := seq(n - 1, _ => '0');
      assert zs[1..] == zs';
      assert (zs + h)[1..] == zs' + h;
      assert AllHex(zs + h);
      assert (zs + h)[0] == '0';
    }
  }

  /** A padded group reads back as its value and is exactly `width` digits when the value fits. */
  lemma PadHexValue(v: nat, width: nat)
    ensures AllHex(PadHex(v, width)) && GroupVal(PadHex(v, width)) == v
    ensures |PadHex(v, width)| >= 1
    ensures width >= 1 && v < Pow2(4 * width) ==> |PadHex(v, width)| == width
  {
    hide Acc, Pow2;
    HexDigitsValue(v);
    LeadingZeros(if |HexDigits(v)| < width then width - |HexDigits(v)| else 0, HexDigits(v));
    if width >= 1 && v < Pow2(4 * width) { HexDigitsLength(v, width); }
  }

  /** Chunk k of a number: its bits 32k .. 32k + 31. */
  function Chunk(v: nat, k: nat): nat { Low(Shr(v, 32 * k), 32) }

  /** Bits in the topmost chunk of a mask. */
  function TopSize(nmaskbits: nat): nat { if nmaskbits % 32 == 0 then 32 else nmaskbits % 32 }

  function ChunkSize(k: nat, nmaskbits: nat): nat {
    if k == (nmaskbits + 31) / 32 - 1 then TopSize(nmaskbits) else 32
  }

  /** The groups printed for chunks k, k-1, .., 0; leading zero chunks are skipped while `first`. */
  function PrintGroups(v: nat, k: nat, nmaskbits: nat, first: bool): seq<string> {
    if Chunk(v, k) != 0 || !first || k == 0 then
      [PadHex(Chunk(v, k), (ChunkSize(k, nmaskbits) + 3) / 4)]
      + if k == 0 then [] else PrintGroups(v, k - 1, nmaskbits, false)
    else PrintGroups(v, k - 1, nmaskbits, first)
  }

  function Print(v: nat, nmaskbits: nat): string
    requires nmaskbits >= 1
  {
    Join(PrintGroups(v, (nmaskbits + 31) / 32 - 1, nmaskbits, true))
  }

  lemma ChunkBound(v: nat, k: nat)
    ensures Chunk(v, k) < 0x1_0000_0000
  {
    Pow2Values();
    Split(Shr(v, 32 * k), 32);
  }

  /** Chunk k on top of the lower chunks. */
  lemma LowSplit(v: nat, k: nat)
    ensures Low(v, 32 * (k + 1)) == Low(v, 32 * k) + Shl(Chunk(v, k), 32 * k)
  {
    hide Bit, Low, Shr, Shl, Pow2;
    var n := 32 * (k + 1);
    var lo, hi := Low(v, 32 * k), Low(Shr(v, 32 * k), 32);
    Split(v, n);
    Split(v, 32 * k);
    Split(Shr(v, 32 * k), 32);
    ShlBound(hi, 32 * k, 32);
    forall i | 0 <= i < n
      ensures Bit(Low(v, n), i) == Bit(lo + Shl(hi, 32 * k), i)
    {
      BitAppend(lo, hi, 32 * k, i);
      BitLow(v, n, i);
      BitLow(v, 32 * k, i);
      if i >= 32 * k {
        BitLow(Shr(v, 32 * k), 32, i - 32 * k);
        BitShr(v, 32 * k, i - 32 * k);
      }
    }
    BitsDetermine(Low(v, n), lo + Shl(hi, 32 * k), n);
  }

  lemma {:induction false} PrintedNumber(v: nat, k: nat, nmaskbits: nat, first: bool, acc: nat)
    requires nmaskbits >= 1
    requires first ==> acc == 0
    ensures
      var gs := PrintGroups(v, k, nmaskbits, first);
      Groups(gs) && GroupsFit(gs) && NumAcc(acc, gs) == Shl(acc, 32 * (k + 1)) + Low(v, 32 * (k + 1))
    decreases k
  {
    hide Low, Shr, Shl, Pow2, Acc, Chunk, PadHex, GroupVal, NumAcc, ChunkSize;
    var chunk := Chunk(v, k);
    ChunkBound(v, k);
    LowSplit(v, k);
    if chunk != 0 || !first || k == 0 {
      var width := (ChunkSize(k, nmaskbits) + 3) / 4;
      var rest := if k == 0 then [] else PrintGroups(v, k - 1, nmaskbits, false);
      var next := 0x1_0000_0000 * acc + chunk;
      PadHexValue(chunk, width);
      ShlStep(acc, chunk, k);
      if k == 0 {
        ShlZero(next);
        LowZero(v);
      } else {
        PrintedNumber(v, k - 1, nmaskbits, false, next);
      }
      ConsGroup(PadHex(chunk, width), rest, acc);
    } else {
      PrintedNumber(v, k - 1, nmaskbits, first, acc);
      ShlOfZero(32 * (k + 1));
      ShlOfZero(32 * k);
    }
  }

  lemma ConsGroup(g: string, rest: seq<string>, acc: nat)
    requires |g| >= 1 && AllHex(g) && GroupVal(g) < 0x1_0000_0000
    requires AllHexGroups(rest) && GroupsFit(rest)
    ensures Groups([g] + rest) && GroupsFit([g] + rest)
    ensures NumAcc(acc, [g] + rest) == NumAcc(0x1_0000_0000 * acc + GroupVal(g), rest)
    ensures rest == [] ==> NumAcc(acc, [g] + rest) == 0x1_0000_0000 * acc + GroupVal(g)
  {
    hide GroupVal;
    assert ([g] + rest)[1..] == rest;
    FitTail([g] + rest);
  }

  lemma ShlStep(acc: nat, chunk: nat, k: nat)
    ensures Shl(0x1_0000_0000 * acc + chunk, 32 * k) == Shl(acc, 32 * (k + 1)) + Shl(chunk, 32 * k)
  {
    hide Shl, Pow2;
    Pow2Values();
    ShlAdd(0x1_0000_0000 * acc, chunk, 32 * k);
    ShlIsProduct(acc, 32);
    ShlShl(acc, 32, 32 * k);
  }

  lemma ShlZero(v: nat)
    ensures Shl(v, 0) == v
  {
  }

  lemma LowZero(v: nat)
    ensures Low(v, 0) == 0
  {
  }

  lemma ShlOfZero(s: nat)
    ensures Shl(0, s) == 0
  {
    ShlIsProduct(0, s);
  }

  /** Printing a mask and parsing the text gives the mask back, for every mask size. */
  lemma RoundTrip(v: nat, nmaskbits: nat)
    requires nmaskbits >= 1 && v < Pow2(nmaskbits)
    ensures Parse(Print(v, nmaskbits), nmaskbits) == Outcome(0, v)
  {
    hide Pow2, Low, Shl, PrintGroups, NumAcc, ParseLoop;
    var k := (nmaskbits + 31) / 32 - 1;
    var gs := PrintGroups(v, k, nmaskbits, true);
    PrintedNumber(v, k, nmaskbits, true, 0);
    ShlOfZero(32 * (k + 1));
    Pow2Mono(nmaskbits, 32 * (k + 1));
    LowSmall(v, 32 * (k + 1));
    ParseWellFormed("", gs, "", nmaskbits);
    assert "" + Join(gs) + "" == Join(gs);
  }
}
