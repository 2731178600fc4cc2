/** The loops of bitmap_scnprintf, __bitmap_parse and fls, proved against HexText. */
module HexCode {
  import opened Bits
  import opened Bitmap
  import opened HexText

  /** Masking with the top bits is zero exactly on small numbers. */
  lemma TopBits(x: nat, k: nat)
    requires k <= 32 && x < 0x1_0000_0000
    ensures And(x, Shl(Pow2(32 - k) - 1, k)) == 0 <==> x < Pow2(k)
  {
    hide And, Shl, Shr, Pow2, Low;
    Pow2Values();
    AndHigh(x, Pow2(32 - k) - 1, k);
    AndOnes(Shr(x, k), 32 - k);
    ShrBound(x, k, 32 - k);
    LowSmall(Shr(x, k), 32 - k);
    ShlIsProduct(Shr(x, k), k);
    Split(x, k);
    if Shr(x, k) > 0 {
      Scale(1, Shr(x, k), Pow2(k));
    }
  }

  /** The five masks of fls. */
  lemma FlsMasks()
    ensures Shl(Pow2(16) - 1, 16) == 0xffff_0000 && Pow2(16) == 0x1_0000
    ensures Shl(Pow2(8) - 1, 24) == 0xff00_0000 && Pow2(24) == 0x100_0000
    ensures Shl(Pow2(4) - 1, 28) == 0xf000_0000 && Pow2(28) == 0x1000_0000
    ensures Shl(Pow2(2) - 1, 30) == 0xc000_0000 && Pow2(30) == 0x4000_0000
    ensures Shl(Pow2(1) - 1, 31) == 0x8000_0000 && Pow2(31) == 0x8000_0000
  {
    hide Shl;
    assert Pow2(1) == 2 && Pow2(2) == 4 && Pow2(4) == 16 && Pow2(8) == 256;
    Pow2Values();
    Pow2Add(16, 8);
    Pow2Add(28, 2);
    Pow2Add(28, 1);
    Pow2Add(30, 1);
    ShlIsProduct(Pow2(16) - 1, 16);
    ShlIsProduct(Pow2(8) - 1, 24);
    ShlIsProduct(Pow2(4) - 1, 28);
    ShlIsProduct(Pow2(2) - 1, 30);
    ShlIsProduct(Pow2(1) - 1, 31);
  }

  lemma {:induction false} BitLengthDouble(v: nat, n: nat)
    requires v > 0
    ensures BitLength(v * Pow2(n)) == BitLength(v) + n
  {
    hide *;
    if n > 0 {
      BitLengthDouble(v, n - 1);
      Pow2Step(n);
      var h := v * Pow2(n - 1);
      assert v * Pow2(n) == 2 * h;
      Scale(1, v, Pow2(n - 1));
      BitLengthTwice(h);
    } else {
      Pow2Step(0);
    }
  }

  lemma Pow2Step(n: nat)
    ensures Pow2(n) == (if n == 0 then 1 else 2 * Pow2(n - 1)) && Pow2(n) > 0
  {
  }

  lemma BitLengthTwice(h: nat)
    requires h > 0
    ensures BitLength(2 * h) == BitLength(h) + 1
  {
  }

  lemma BitLengthAtMost(v: nat, n: nat)
    requires v < Pow2(n)
    ensures BitLength(v) <= n
  {
    hide Pow2, BitLength;
    BitLengthBounds(v);
    if BitLength(v) > n && v > 0 { Pow2Mono(n, BitLength(v) - 1); }
    if v == 0 { BitLengthOfZero(); }
  }

  lemma BitLengthOfZero()
    ensures BitLength(0) == 0
  {
  }

  /** What fls knows after the tests up to width n: x is x0 shifted, and its top n bits are not all clear. */
  ghost predicate FlsState(x: nat, x0: nat, r: nat, n: nat)
    requires n <= 32
  {
    Pow2(32 - n) <= x < Pow2(32) && 32 - r <= 32 && BitLength(x) == BitLength(x0) + 32 - r
  }

  lemma FlsStep(x: nat, x0: nat, r: nat, n: nat, p: nat, mask: nat)
    requires 1 <= n <= 16 && FlsState(x, x0, r, 2 * n)
    requires p == Pow2(n) && mask == Shl(Pow2(n) - 1, 32 - n)
    ensures And(x, mask) != 0 ==> FlsState(x, x0, r, n)
    ensures And(x, mask) == 0 ==> r >= n && FlsState((x * p) % 0x1_0000_0000, x0, r - n, n)
  {
    hide *;
    Pow2Values();
    FlsMeans(x, x0, r, 2 * n);
    TopBits(x, 32 - n);
    if x < Pow2(32 - n) {
      BitLengthDouble(x, n);
      ShiftedRange(x, n);
      DivModUnique(x * p, 0x1_0000_0000, 0, x * p);
      BitLengthAtMost(x, 32 - n);
      FlsIs(x * p, x0, r - n, n);
    } else {
      FlsIs(x, x0, r, n);
    }
  }

  lemma FlsMeans(x: nat, x0: nat, r: nat, n: nat)
    requires n <= 32 && FlsState(x, x0, r, n)
    ensures Pow2(32 - n) <= x < Pow2(32) && 32 - r <= 32 && BitLength(x) == BitLength(x0) + 32 - r
    ensures x > 0
  {
    hide BitLength, Pow2;
    Pow2Step(32 - n);
  }

  lemma FlsIs(x: nat, x0: nat, r: nat, n: nat)
    requires n <= 32 && Pow2(32 - n) <= x < Pow2(32) && 32 - r <= 32 && BitLength(x) == BitLength(x0) + 32 - r
    ensures FlsState(x, x0, r, n)
  {
    hide BitLength, Pow2;
  }

  lemma ShiftedRange(x: nat, n: nat)
    requires 1 <= n <= 16 && Pow2(32 - 2 * n) <= x < Pow2(32 - n)
    ensures Pow2(32 - n) <= x * Pow2(n) < Pow2(32)
  {
    hide *;
    Pow2Step(n);
    Pow2Add(32 - n, n);
    Pow2Add(32 - 2 * n, n);
    Scale(x + 1, Pow2(32 - n), Pow2(n));
    assert (x + 1) * Pow2(n) == x * Pow2(n) + Pow2(n);
    Scale(Pow2(32 - 2 * n), x, Pow2(n));
  }

  /** fls: the position of the highest set bit of a 32-bit value, counted from 1. */
  method Fls(x0: nat) returns (r: nat)
    requires x0 < 0x1_0000_0000
    ensures r == BitLength(x0)
    ensures x0 < Pow2(r) && (x0 > 0 ==> r > 0 && Pow2(r - 1) <= x0)
  {
    hide And, Shl, Pow2, BitLength, FlsState;
    BitLengthBounds(x0);
    BitLengthOfZero();
    Pow2Values();
    FlsMasks();
    SmallPowers();
    var x := x0;
    r := 32;
    if x == 0 { return 0; }
    FlsStart(x);
    FlsStep(x, x0, r, 16, 0x1_0000, 0xffff_0000);
    if And(x, 0xffff_0000) == 0 {
      x := (x * 0x1_0000) % 0x1_0000_0000;
      r := r - 16;
    }
    FlsStep(x, x0, r, 8, 0x100, 0xff00_0000);
    if And(x, 0xff00_0000) == 0 {
      x := (x * 0x100) % 0x1_0000_0000;
      r := r - 8;
    }
    FlsStep(x, x0, r, 4, 0x10, 0xf000_0000);
    if And(x, 0xf000_0000) == 0 {
      x := (x * 0x10) % 0x1_0000_0000;
      r := r - 4;
    }
    FlsStep(x, x0, r, 2, 4, 0xc000_0000);
    if And(x, 0xc000_0000) == 0 {
      x := (x * 4) % 0x1_0000_0000;
      r := r - 2;
    }
    FlsStep(x, x0, r, 1, 2, 0x8000_0000);
    if And(x, 0x8000_0000) == 0 {
      x := (x * 2) % 0x1_0000_0000;
      r := r - 1;
    }
    FlsEnd(x, x0, r);
  }

  lemma FlsStart(x: nat)
    requires 0 < x < 0x1_0000_0000
    ensures FlsState(x, x, 32, 32)
  {
    Pow2Values();
  }

  lemma FlsEnd(x: nat, x0: nat, r: nat)
    requires FlsState(x, x0, r, 1)
    ensures r == BitLength(x0)
  {
    hide Pow2, BitLength;
    BitLengthAtMost(x, 32);
    BitLengthBounds(x);
    if BitLength(x) < 32 { Pow2Mono(BitLength(x), 31); }
  }

  // ---- __bitmap_parse

  /** bitmap_zero */
  method Zero(dst: array<Word>, nbits: nat)
    requires nbits >= 1 && dst.Length >= Longs(nbits)
    modifies dst
    ensures forall j :: 0 <= j < Longs(nbits) ==> dst[j] == 0
    ensures dst[Longs(nbits)..] == old(dst[Longs(nbits)..])
  {
    if nbits <= 64 {
      dst[0] := 0;
    } else {
      for j := 0 to Longs(nbits)
        invariant forall i :: 0 <= i < j ==> dst[i] == 0
        invariant dst[Longs(nbits)..] == old(dst[Longs(nbits)..])
      {
        dst[j] := 0;
      }
    }
  }

  lemma {:induction false} ZeroValue(ws: seq<Word>)
    requires forall j :: 0 <= j < |ws| ==> ws[j] == 0
    ensures Value(ws) == 0
  {
    if |ws| > 0 {
      ZeroValue(ws[1..]);
      ShlIsProduct(0, 64);
    }
  }

  /** The shift leaves the low 32 bits clear, so or-ing the chunk in adds it. */
  lemma OrChunk(ws: seq<Word>, v: nat, n: nat, chunk: nat)
    requires |ws| >= 1 && Value(ws) == (0x1_0000_0000 * v) % Pow2(n) && chunk < 0x1_0000_0000
    ensures Value(ws[0 := OrW(ws[0], chunk)]) == Value(ws) + chunk
  {
    hide Bit, Or, Shl, Shr, Low, Pow2;
    var w := ws[0];
    var x := Shl(v, 32);
    Pow2Values();
    ShlIsProduct(v, 32);
    ShrIsQuotient(x, n);
    Split(w, 32);
    if Low(w, 32) != 0 {
      var i := NonzeroBit(Low(w, 32), 32);
      BitLow(w, 32, i);
      InWord(ws, 0, i);
      BitValue(ws, i);
      BitLow(x, n, i);
      BitShl(v, 32, i);
    }
    OrAppend(chunk, Shr(w, 32), 32);
    assert OrW(w, chunk) == w + chunk;
    var ws' := ws[0 := OrW(w, chunk)];
    assert ws'[1..] == ws[1..];
  }

  lemma ChunkFull(chunk: nat)
    requires chunk < 0x1_0000_0000
    ensures And(chunk, 0xf000_0000) != 0 <==> chunk >= 0x1000_0000
  {
    hide And, Shl, Pow2;
    Pow2Values();
    FlsMasks();
    TopBits(chunk, 28);
  }

  lemma PushDigit(chunk: nat, d: nat)
    requires chunk < 0x1000_0000 && d < 16
    ensures Or(Low(Shl(chunk, 4), 32), d) == 16 * chunk + d < 0x1_0000_0000
  {
    hide Or, Low, Shl, Pow2;
    Pow2Values();
    SmallPowers();
    ShlIsProduct(chunk, 4);
    LowSmall(Shl(chunk, 4), 32);
    OrAppend(d, chunk, 4);
  }

  /** The inner loop of __bitmap_parse: get the next chunk of the bitmap. */
  method NextChunk(buf: string, from: nat, prev: char, digits: nat)
      returns (leave: bool, code: int, pos: nat, c: char, chunk: nat, ndigits: nat, totaldigits: nat)
    requires from <= |buf|
    ensures from <= pos <= |buf| && chunk < 0x1_0000_0000
    ensures ScanChunk(buf[from..], prev, 0, 0, digits)
         == if leave then Leave(code) else Stop(buf[pos..], c, chunk, ndigits, totaldigits)
  {
    hide And, Or, Shl, Low, IsSpace, IsXDigit, Unhex;
    ghost var scan := ScanChunk(buf[from..], prev, 0, 0, digits);
    leave, code, pos, c := false, 0, from, prev;
    chunk, ndigits, totaldigits := 0, 0, digits;
    while pos < |buf|
      invariant from <= pos <= |buf| && chunk < 0x1_0000_0000 && !leave
      invariant scan == ScanChunk(buf[pos..], c, chunk, ndigits, totaldigits)
      decreases |buf| - pos
    {
      var old_c := c;
      assert buf[pos..][0] == buf[pos] && buf[pos..][1..] == buf[pos + 1..];
      c := buf[pos];
      pos := pos + 1;
      if IsSpace(c) { continue; }
      if totaldigits != 0 && c != '\0' && IsSpace(old_c) {
        leave, code := true, 0;
        return;
      }
      if c == '\0' || c == ',' { return; }
      if !IsXDigit(c) {
        leave, code := true, -EINVAL;
        return;
      }
      ChunkFull(chunk);
      if And(chunk, 0xf000_0000) != 0 {
        leave, code := true, -EOVERFLOW;
        return;
      }
      PushDigit(chunk, Unhex(c));
      chunk := Or(Low(Shl(chunk, 4), 32), Unhex(c));
      ndigits, totaldigits := ndigits + 1, totaldigits + 1;
    }
  }

  /** __bitmap_parse: the loops compute HexText.Parse, and the mask ends up denoting its value. */
  method ParseMask(buf: string, mask: array<Word>, nmaskbits: nat) returns (ret: int)
    requires nmaskbits >= 1 && mask.Length >= Longs(nmaskbits)
    modifies mask
    ensures ret == Parse(buf, nmaskbits).ret
    ensures Value(mask[..Longs(nmaskbits)]) == Parse(buf, nmaskbits).value
    ensures mask[Longs(nmaskbits)..] == old(mask[Longs(nmaskbits)..])
  {
    hide Or, Pow2, Value, BitLength, ScanChunk;
    var lim := Longs(nmaskbits);
    ghost var spec := Parse(buf, nmaskbits);
    ghost var beyond := mask[lim..];
    Zero(mask, nmaskbits);
    ZeroValue(mask[..lim]);
    var pos: nat, c := 0, '\0';
    var totaldigits: nat, nchunks: nat, nbits: nat := 0, 0, 0;
    assert buf[0..] == buf;
    while true
      invariant pos <= |buf|
      invariant spec == ParseLoop(buf[pos..], c, totaldigits, nchunks, nbits, Value(mask[..lim]), nmaskbits)
      invariant mask[lim..] == beyond
      decreases |buf| - pos
    {
      ghost var start := pos;
      var leave, code, chunk, ndigits;
      leave, code, pos, c, chunk, ndigits, totaldigits := NextChunk(buf, pos, c, totaldigits);
      if leave { return code; }
      if ndigits == 0 { return -EINVAL; }
      if !(nchunks == 0 && chunk == 0) {
        ghost var v := Value(mask[..lim]);
        ShiftAndOr(mask, chunk, nmaskbits);
        nchunks := nchunks + 1;
        if nchunks == 1 {
          var need := Fls(chunk);
          nbits := nbits + need;
        } else {
          nbits := nbits + 32;
        }
        if nbits > nmaskbits { return -EOVERFLOW; }
      }
      if !(pos < |buf| && c == ',') { return 0; }
    }
  }

  /** `__bitmap_shift_left(maskp, maskp, CHUNKSZ, nmaskbits); *maskp |= chunk` */
  method ShiftAndOr(mask: array<Word>, chunk: nat, nmaskbits: nat)
    requires nmaskbits >= 1 && mask.Length >= Longs(nmaskbits) && chunk < 0x1_0000_0000
    modifies mask
    ensures Value(mask[..Longs(nmaskbits)])
         == (0x1_0000_0000 * old(Value(mask[..Longs(nmaskbits)]))) % Pow2(nmaskbits) + chunk
    ensures mask[Longs(nmaskbits)..] == old(mask[Longs(nmaskbits)..])
  {
    hide Or, Pow2, Value;
    var lim := Longs(nmaskbits);
    Pow2Values();
    ghost var v := Value(mask[..lim]);
    ShiftLeft(mask, mask, 32, nmaskbits);
    assert v * Pow2(32) == 0x1_0000_0000 * v;
    ghost var shifted := mask[..lim];
    OrChunk(shifted, v, nmaskbits, chunk);
    mask[0] := OrW(mask[0], chunk);
    assert mask[..lim] == shifted[0 := OrW(shifted[0], chunk)];
  }

  // ---- bitmap_scnprintf

  /** One chunk read from the words, under the chunk mask, is that chunk of the mask's number. */
  lemma ChunkOfWords(ws: seq<Word>, k: nat, size: nat, n: nat)
    requires 32 * k < 64 * |ws| && n <= 64 * |ws| && size <= 32
    requires size == if 32 * k + 32 <= n then 32 else n - 32 * k
    ensures And(Shr(ws[32 * k / 64], 32 * k % 64), Pow2(size) - 1) == Chunk(Low(Value(ws), n), k)
  {
    hide Bit, And, Shr, Low, Pow2, Value, BitAt;
    var w, b := ws[32 * k / 64], 32 * k % 64;
    var v := Low(Value(ws), n);
    AndOnes(Shr(w, b), size);
    Split(Shr(w, b), size);
    Split(Shr(v, 32 * k), 32);
    Pow2Mono(size, 32);
    forall i | 0 <= i < 32
      ensures Bit(Low(Shr(w, b), size), i) == Bit(Chunk(v, k), i)
    {
      BitLow(Shr(w, b), size, i);
      BitShr(w, b, i);
      BitLow(Shr(v, 32 * k), 32, i);
      BitShr(v, 32 * k, i);
      BitLow(Value(ws), n, 32 * k + i);
      BitValue(ws, 32 * k + i);
      InWord(ws, 32 * k / 64, 32 * k + i);
    }
    BitsDetermine(Low(Shr(w, b), size), Chunk(v, k), 32);
  }

  lemma {:induction false} JoinAppend(gs: seq<string>, hs: seq<string>)
    requires |gs| >= 1 && |hs| >= 1
    ensures Join(gs + hs) == Join(gs) + "," + Join(hs)
    decreases |gs|
  {
    assert (gs + hs)[1..] == gs[1..] + hs;
    if |gs| == 1 {
      assert gs + hs == [gs[0]] + hs;
      assert gs[1..] + hs == hs;
    } else {
      JoinAppend(gs[1..], hs);
    }
  }

  lemma ShrWIsShr(w: Word, r: nat)
    ensures ShrW(w, r) == Shr(w, r)
  {
  }

  lemma ChunkBounds(k: nat, nmaskbits: nat)
    requires k < (nmaskbits + 31) / 32
    ensures 32 * k < nmaskbits <= 64 * Longs(nmaskbits)
    ensures 32 * k / 64 < Longs(nmaskbits)
    ensures ChunkSize(k, nmaskbits) == if 32 * k + 32 <= nmaskbits then 32 else nmaskbits - 32 * k
    ensures 1 <= ChunkSize(k, nmaskbits) <= 32
  {
  }

  /** `(maskp[word] >> bit) & chunkmask` for chunk k */
  method ReadChunk(mask: array<Word>, k: nat, chunksz: nat, nmaskbits: nat) returns (val: nat)
    requires mask.Length >= Longs(nmaskbits) && k < (nmaskbits + 31) / 32 && chunksz == ChunkSize(k, nmaskbits)
    ensures val == Chunk(Low(Value(mask[..]), nmaskbits), k)
  {
    hide And, Shr, Low, Pow2, Value, Chunk;
    hide TopSize, ChunkSize, Longs, ShrW;
    var i := 32 * k;
    ChunkBounds(k, nmaskbits);
    ChunkOfWords(mask[..], k, chunksz, nmaskbits);
    ShrWIsShr(mask[i / 64], i % 64);
    val := And(ShrW(mask[i / 64], i % 64), Pow2(chunksz) - 1);
  }

  /** bitmap_scnprintf, with room for the whole text. */
  method PrintMask(mask: array<Word>, nmaskbits: nat) returns (buf: string)
    requires nmaskbits >= 1 && mask.Length >= Longs(nmaskbits)
    ensures buf == Print(Value(mask[..]) % Pow2(nmaskbits), nmaskbits)
  {
    hide *;
    ghost var v := Low(Value(mask[..]), nmaskbits);
    ShrIsQuotient(Value(mask[..]), nmaskbits);
    JoinFirst("");
    TopChunk(nmaskbits);
    PrintIs(v, nmaskbits);
    var chunksz := nmaskbits % 32;
    if chunksz == 0 { chunksz := 32; }
    buf := "";
    var sep, first := "", true;
    var chunks := (nmaskbits + 31) / 32;
    ghost var whole := PrintGroups(v, chunks - 1, nmaskbits, true);
    ghost var done: seq<string> := [];
    for k := chunks downto 0
      invariant chunksz == (if k == chunks then TopSize(nmaskbits) else 32)
      invariant first == (done == []) && sep == (if first then "" else ",")
      invariant buf == Join(done)
      invariant whole == done + if k == 0 then [] else PrintGroups(v, k - 1, nmaskbits, first)
    {
      var i := 32 * k;
      SizeOfChunk(k, nmaskbits);
      var val := ReadChunk(mask, k, chunksz, nmaskbits);
      PrintAdvance(v, k, nmaskbits, done, whole);
      if val != 0 || !first || i == 0 {
        var g := PadHex(val, (chunksz + 3) / 4);
        JoinMore(done, g);
        buf := buf + (sep + g);
        done := done + [g];
        sep, first := ",", false;
      }
      chunksz := 32;
    }
    assert done + [] == done;
  }

  lemma PrintIs(v: nat, nmaskbits: nat)
    requires nmaskbits >= 1
    ensures Print(v, nmaskbits) == Join(PrintGroups(v, (nmaskbits + 31) / 32 - 1, nmaskbits, true))
  {
    hide PrintGroups, Join;
  }

  lemma TopChunk(nmaskbits: nat)
    ensures TopSize(nmaskbits) == if nmaskbits % 32 == 0 then 32 else nmaskbits % 32
    ensures nmaskbits >= 1 ==> (nmaskbits + 31) / 32 >= 1
  {
  }

  lemma SizeOfChunk(k: nat, nmaskbits: nat)
    ensures ChunkSize(k, nmaskbits) == if k == (nmaskbits + 31) / 32 - 1 then TopSize(nmaskbits) else 32
  {
  }

  lemma JoinMore(done: seq<string>, g: string)
    ensures Join(done + [g]) == Join(done) + ((if done == [] then "" else ",") + g)
  {
    hide Join;
    JoinFirst(g);
    if done == [] { assert done + [g] == [g]; } else { JoinAppend(done, [g]); }
  }

  lemma JoinFirst(g: string)
    ensures Join([]) == "" && Join([g]) == g
  {
  }

  /** The loop's progress: what is printed for chunk k moves from the rest to the part done. */
  lemma PrintAdvance(v: nat, k: nat, nmaskbits: nat, done: seq<string>, whole: seq<string>)
    requires whole == done + PrintGroups(v, k, nmaskbits, done == [])
    ensures
      var g := PadHex(Chunk(v, k), (ChunkSize(k, nmaskbits) + 3) / 4);
      var now := if Chunk(v, k) != 0 || done != [] || k == 0 then done + [g] else done;
      whole == now + if k == 0 then [] else PrintGroups(v, k - 1, nmaskbits, now == [])
  {
    hide *;
    PrintStep(v, k, nmaskbits, done == []);
  }

  /** The groups for chunk k and below, one step. */
  lemma PrintStep(v: nat, k: nat, nmaskbits: nat, first: bool)
    ensures
      var below := if k == 0 then [] else PrintGroups(v, k - 1, nmaskbits, if Chunk(v, k) != 0 then false else first);
      PrintGroups(v, k, nmaskbits, first)
      == if Chunk(v, k) != 0 || !first || k == 0
         then [PadHex(Chunk(v, k), (ChunkSize(k, nmaskbits) + 3) / 4)] + below
         else below
  {
    hide Chunk, PadHex;
  }

  /** Writing an affinity mask and reading it back: same low bits, whatever the unused ones hold. */
  method PrintThenParse(mask: array<Word>, out: array<Word>, nmaskbits: nat) returns (ret: int)
    requires nmaskbits >= 1 && mask.Length >= Longs(nmaskbits) && out.Length >= Longs(nmaskbits) && mask != out
    modifies out
    ensures ret == 0
    ensures Value(out[..Longs(nmaskbits)]) == Value(mask[..]) % Pow2(nmaskbits)
  {
    hide Pow2, Value, Parse, Print;
    var buf := PrintMask(mask, nmaskbits);
    ShrIsQuotient(Value(mask[..]), nmaskbits);
    Split(Value(mask[..]), nmaskbits);
    RoundTrip(Value(mask[..]) % Pow2(nmaskbits), nmaskbits);
    ret := ParseMask(buf, out, nmaskbits);
  }
}
