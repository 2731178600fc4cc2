/**
 The word arrays of bitmap.c and bitmap.h, for a 64-bit unsigned long.
 A bitmap of `bits` bits denotes the natural number Value(words) % 2^bits, or
 equally the set BitSet(words, bits); bits of the last word above `bits` are unused.
 */
module Bitmap {
  import opened Bits
  import opened Popcount

  type Word = w: nat | w < 0x1_0000_0000_0000_0000

  /** BITS_TO_LONGS */
  function Longs(bits: nat): nat { (bits + 63) / 64 }

  ghost predicate BitAt(ws: seq<Word>, q: int) {
    0 <= q < 64 * |ws| && Bit(ws[q / 64], q % 64)
  }

  ghost function BitSet(ws: seq<Word>, bits: nat): set<nat> {
    set q: nat | 0 <= q < bits && BitAt(ws, q)
  }

  /** The number a little-endian word sequence stands for. */
  ghost function Value(ws: seq<Word>): nat {
    if |ws| == 0 then 0 else ws[0] + Shl(Value(ws[1..]), 64)
  }

  // ---- the number and the bits of a word sequence agree

  lemma {:induction false} BitValue(ws: seq<Word>, q: nat)
    ensures Bit(Value(ws), q) == BitAt(ws, q)
  {
    if |ws| == 0 {
      BitZero(q);
    } else {
      Pow2Values();
      BitAppend(ws[0], Value(ws[1..]), 64, q);
      if q >= 64 {
        BitValue(ws[1..], q - 64);
        assert (q - 64) / 64 == q / 64 - 1 && (q - 64) % 64 == q % 64;
      }
    }
  }

  lemma {:induction false} ValueBound(ws: seq<Word>)
    ensures Value(ws) < Pow2(64 * |ws|)
  {
    if |ws| > 0 {
      Pow2Values();
      ValueBound(ws[1..]);
      ShlBound(Value(ws[1..]), 64, 64 * (|ws| - 1));
    }
  }

  lemma ValueFromBits(ws: seq<Word>, v: nat, n: nat)
    requires v < Pow2(n) && n <= 64 * |ws|
    requires forall q :: 0 <= q < 64 * |ws| ==> BitAt(ws, q) == (q < n && Bit(v, q))
    ensures Value(ws) == v
  {
    var m := 64 * |ws|;
    ValueBound(ws);
    Pow2Mono(n, m);
    forall q | 0 <= q < m
      ensures Bit(Value(ws), q) == Bit(v, q)
    {
      BitValue(ws, q);
      if q >= n { BitHigh(v, n, q); }
    }
    BitsDetermine(Value(ws), v, m);
  }

  // ---- operators on words

  function ShlW(w: Word, r: nat): Word {
    Pow2Values();
    Split(Shl(w, r), 64);
    Low(Shl(w, r), 64)
  }

  function ShrW(w: Word, r: nat): Word {
    ShrLess(w, r);
    Shr(w, r)
  }

  lemma {:induction false} ShrLess(v: nat, r: nat)
    ensures Shr(v, r) <= v
    decreases r
  {
    if r > 0 { ShrLess(v / 2, r - 1); }
  }

  function OrW(a: Word, b: Word): Word {
    Pow2Values();
    OrBound(a, b, 64);
    Or(a, b)
  }

  function AndW(a: Word, b: nat): Word {
    Pow2Values();
    AndBound(a, b, 64);
    And(a, b)
  }

  function XorW(a: Word, b: Word): Word {
    Pow2Values();
    XorBound(a, b, 64);
    Xor(a, b)
  }

  function NotW(a: Word): Word { 0xffff_ffff_ffff_ffff - a }

  lemma BitNotW(a: Word, i: nat)
    requires i < 64
    ensures Bit(NotW(a), i) == !Bit(a, i)
  {
    Pow2Values();
    BitNot(a, 64, i);
  }

  /** (1UL << n) - 1 */
  function Ones1(n: nat): nat { Pow2(n) - 1 }

  /** BITMAP_LAST_WORD_MASK */
  function LastWordMask(bits: nat): nat {
    if bits % 64 != 0 then Ones1(bits % 64) else 0xffff_ffff_ffff_ffff
  }

  /** `if (cond) w &= (1UL << n) - 1` */
  function Clip(w: Word, n: nat, cond: bool): Word {
    if cond then AndW(w, Ones1(n)) else w
  }

  lemma BitClip(w: Word, n: nat, cond: bool, i: nat)
    ensures Bit(Clip(w, n, cond), i) == (Bit(w, i) && (cond ==> i < n))
  {
    AndOnes(w, n);
    BitLow(w, n, i);
  }

  /** The word operations in terms of plain numbers. */
  lemma WordShifts(below: Word, above: Word, r: nat, l: nat)
    ensures ShrW(below, r) == Shr(below, r) && ShlW(above, l) == Low(Shl(above, l), 64)
    ensures OrW(ShrW(below, r), ShlW(above, l)) == Or(ShrW(below, r), ShlW(above, l))
    ensures OrW(ShlW(above, l), ShrW(below, r)) == Or(ShlW(above, l), ShrW(below, r))
  {
    hide Or, Shr, Shl, Low, Pow2;
  }

  /** The bits of one result word of either shift, from two neighbouring source words. */
  lemma BitJoin(below: Word, above: Word, rem: nat, i: nat)
    requires rem < 64 && i < 64
    ensures Bit(OrW(ShrW(below, 64 - rem), ShlW(above, rem)), i)
         == if i >= rem then Bit(above, i - rem) else Bit(below, i + 64 - rem)
  {
    hide *;
    Pow2Values();
    WordShifts(below, above, 64 - rem, rem);
    BitOr(ShrW(below, 64 - rem), ShlW(above, rem), i);
    BitShr(below, 64 - rem, i);
    BitLow(Shl(above, rem), 64, i);
    BitShl(above, rem, i);
    if i >= rem { BitHigh(below, 64, i + 64 - rem); }
  }

  // ---- shifts

  /** The word that __bitmap_shift_left stores at index k + off. */
  ghost function LeftWord(src: seq<Word>, bits: nat, shift: nat, k: nat): Word
    requires k < |src|
  {
    var lim, left, off, rem := Longs(bits), bits % 64, shift / 64, shift % 64;
    var lower := if rem != 0 && k > 0 then src[k - 1] else 0;
    var upper := Clip(src[k], left, left != 0 && k == lim - 1);
    Clip(OrW(ShrW(lower, 64 - rem), ShlW(upper, rem)), left, left != 0 && k + off == lim - 1)
  }

  lemma BitLeftWord(src: seq<Word>, bits: nat, shift: nat, k: nat, i: nat)
    requires k + shift / 64 < Longs(bits) <= |src| && i < 64
    ensures
      var q := 64 * (k + shift / 64) + i;
      Bit(LeftWord(src, bits, shift, k), i) == (shift <= q < bits && BitAt(src, q - shift))
  {
    hide Bit, And, Or, Shl, Shr, Low, Pow2, OrW, ShrW, ShlW, Clip, AndW;
    var lim, left, off, rem := Longs(bits), bits % 64, shift / 64, shift % 64;
    var lower: Word := if rem != 0 && k > 0 then src[k - 1] else 0;
    var upper := Clip(src[k], left, left != 0 && k == lim - 1);
    var w := OrW(ShrW(lower, 64 - rem), ShlW(upper, rem));
    var q := 64 * (k + off) + i;
    BitClip(w, left, left != 0 && k + off == lim - 1, i);
    BitJoin(lower, upper, rem, i);
    assert q < bits <==> (left != 0 && k + off == lim - 1 ==> i < left);
    if i >= rem {
      BitClip(src[k], left, left != 0 && k == lim - 1, i - rem);
      assert q - shift == 64 * k + (i - rem);
      assert (q - shift) / 64 == k && (q - shift) % 64 == i - rem;
    } else if k > 0 {
      assert q - shift == 64 * (k - 1) + (i + 64 - rem);
      assert (q - shift) / 64 == k - 1 && (q - shift) % 64 == i + 64 - rem;
    } else {
      BitZero(i + 64 - rem);
    }
  }

  /** __bitmap_shift_left; dst and src may be the same array. */
  method ShiftLeft(dst: array<Word>, src: array<Word>, shift: nat, bits: nat)
    requires dst.Length >= Longs(bits) && src.Length >= Longs(bits)
    requires shift / 64 <= Longs(bits)
    modifies dst
    ensures Value(dst[..Longs(bits)]) == (old(Value(src[..Longs(bits)])) * Pow2(shift)) % Pow2(bits)
    ensures dst[Longs(bits)..] == old(dst[Longs(bits)..])
  {
    hide Bit, And, Or, Shl, Shr, Low, Pow2, OrW, ShrW, ShlW, AndW, Value;
    var lim, left := Longs(bits), bits % 64;
    var off, rem := shift / 64, shift % 64;
    ghost var was := src[..lim];
    for k := lim - off downto 0
      invariant forall j :: 0 <= j < k ==> src[j] == was[j]
      invariant forall j :: k <= j < lim - off ==> dst[j + off] == LeftWord(was, bits, shift, j)
      invariant dst[lim..] == old(dst[lim..])
    {
      var lower: Word := if rem != 0 && k > 0 then src[k - 1] else 0;
      var upper := src[k];
      if left != 0 && k == lim - 1 {
        upper := AndW(upper, Ones1(left));
      }
      dst[k + off] := OrW(ShrW(lower, 64 - rem), ShlW(upper, rem));
      if left != 0 && k + off == lim - 1 {
        dst[k + off] := AndW(dst[k + off], Ones1(left));
      }
      assert dst[k + off] == LeftWord(was, bits, shift, k);
    }
    for j := 0 to off
      invariant forall i :: 0 <= i < j ==> dst[i] == 0
      invariant forall j :: 0 <= j < lim - off ==> dst[j + off] == LeftWord(was, bits, shift, j)
      invariant dst[lim..] == old(dst[lim..])
    {
      dst[j] := 0;
    }
    LeftValue(was, dst[..lim], bits, shift);
  }

  lemma LeftValue(src: seq<Word>, dst: seq<Word>, bits: nat, shift: nat)
    requires |src| == |dst| == Longs(bits) && shift / 64 <= Longs(bits)
    requires forall j :: 0 <= j < shift / 64 ==> dst[j] == 0
    requires forall j :: 0 <= j < Longs(bits) - shift / 64 ==> dst[j + shift / 64] == LeftWord(src, bits, shift, j)
    ensures Value(dst) == (Value(src) * Pow2(shift)) % Pow2(bits)
  {
    hide Bit, And, Or, Shl, Shr, Low, Pow2, LeftWord, Value;
    var off := shift / 64;
    var v := Low(Shl(Value(src), shift), bits);
    forall q | 0 <= q < 64 * |dst|
      ensures BitAt(dst, q) == (q < bits && Bit(v, q))
    {
      var j, i := q / 64, q % 64;
      BitLow(Shl(Value(src), shift), bits, q);
      BitShl(Value(src), shift, q);
      if q >= shift { BitValue(src, q - shift); }
      if j < off {
        BitZero(i);
      } else {
        BitLeftWord(src, bits, shift, j - off, i);
        assert dst[(j - off) + off] == LeftWord(src, bits, shift, j - off);
      }
    }
    Split(Shl(Value(src), shift), bits);
    ValueFromBits(dst, v, bits);
    ShlIsProduct(Value(src), shift);
    ShrIsQuotient(Shl(Value(src), shift), bits);
  }

  /** The word that __bitmap_shift_right stores at index k. */
  ghost function RightWord(src: seq<Word>, bits: nat, shift: nat, k: nat): Word
    requires k + shift / 64 < Longs(bits) <= |src|
  {
    var lim, left, off, rem := Longs(bits), bits % 64, shift / 64, shift % 64;
    var upper := if rem == 0 || off + k + 1 >= lim then 0
                 else Clip(src[off + k + 1], left, off + k + 1 == lim - 1 && left != 0);
    var lower := Clip(src[off + k], left, left != 0 && off + k == lim - 1);
    Clip(OrW(ShlW(upper, 64 - rem), ShrW(lower, rem)), left, left != 0 && k == lim - 1)
  }

  lemma BitJoinRight(below: Word, above: Word, rem: nat, i: nat)
    requires rem < 64 && i < 64
    ensures Bit(OrW(ShlW(above, 64 - rem), ShrW(below, rem)), i)
         == if i + rem < 64 then Bit(below, i + rem) else Bit(above, i + rem - 64)
  {
    hide *;
    Pow2Values();
    WordShifts(below, above, rem, 64 - rem);
    BitOr(ShlW(above, 64 - rem), ShrW(below, rem), i);
    BitShr(below, rem, i);
    BitLow(Shl(above, 64 - rem), 64, i);
    BitShl(above, 64 - rem, i);
    if i + rem >= 64 { BitHigh(below, 64, i + rem); }
  }

  lemma BitRightWord(src: seq<Word>, bits: nat, shift: nat, k: nat, i: nat)
    requires k + shift / 64 < Longs(bits) <= |src| && i < 64
    ensures
      var q := 64 * k + i + shift;
      Bit(RightWord(src, bits, shift, k), i) == (q < bits && BitAt(src, q))
  {
    hide Bit, And, Or, Shl, Shr, Low, Pow2, OrW, ShrW, ShlW, Clip, AndW;
    var lim, left, off, rem := Longs(bits), bits % 64, shift / 64, shift % 64;
    var upper: Word := if rem == 0 || off + k + 1 >= lim then 0
                       else Clip(src[off + k + 1], left, off + k + 1 == lim - 1 && left != 0);
    var lower := Clip(src[off + k], left, left != 0 && off + k == lim - 1);
    var w := OrW(ShlW(upper, 64 - rem), ShrW(lower, rem));
    var q := 64 * k + i + shift;
    BitClip(w, left, left != 0 && k == lim - 1, i);
    BitJoinRight(lower, upper, rem, i);
    if i + rem < 64 {
      BitClip(src[off + k], left, left != 0 && off + k == lim - 1, i + rem);
      assert q == 64 * (k + off) + (i + rem);
      assert q / 64 == off + k && q % 64 == i + rem;
    } else {
      assert q == 64 * (k + off + 1) + (i + rem - 64);
      assert q / 64 == off + k + 1 && q % 64 == i + rem - 64;
      if off + k + 1 >= lim {
        BitZero(i + rem - 64);
      } else {
        BitClip(src[off + k + 1], left, off + k + 1 == lim - 1 && left != 0, i + rem - 64);
      }
    }
  }

  /** __bitmap_shift_right; dst and src may be the same array. */
  method ShiftRight(dst: array<Word>, src: array<Word>, shift: nat, bits: nat)
    requires dst.Length >= Longs(bits) && src.Length >= Longs(bits)
    requires shift / 64 <= Longs(bits)
    modifies dst
    ensures Value(dst[..Longs(bits)]) == (old(Value(src[..Longs(bits)])) % Pow2(bits)) / Pow2(shift)
    ensures dst[Longs(bits)..] == old(dst[Longs(bits)..])
  {
    hide Bit, And, Or, Shl, Shr, Low, Pow2, OrW, ShrW, ShlW, AndW, Value;
    var lim, left := Longs(bits), bits % 64;
    var off, rem := shift / 64, shift % 64;
    ghost var was := src[..lim];
    for k := 0 to lim - off
      invariant forall j :: off + k <= j < lim ==> src[j] == was[j]
      invariant forall j :: 0 <= j < k ==> dst[j] == RightWord(was, bits, shift, j)
      invariant dst[lim..] == old(dst[lim..])
    {
      var upper: Word := 0;
      if !(rem == 0 || off + k + 1 >= lim) {
        upper := src[off + k + 1];
        if off + k + 1 == lim - 1 && left != 0 {
          upper := AndW(upper, Ones1(left));
        }
      }
      var lower := src[off + k];
      if left != 0 && off + k == lim - 1 {
        lower := AndW(lower, Ones1(left));
      }
      dst[k] := OrW(ShlW(upper, 64 - rem), ShrW(lower, rem));
      if left != 0 && k == lim - 1 {
        dst[k] := AndW(dst[k], Ones1(left));
      }
      assert dst[k] == RightWord(was, bits, shift, k);
    }
    for j := lim - off to lim
      invariant forall i :: lim - off <= i < j ==> dst[i] == 0
      invariant forall j :: 0 <= j < lim - off ==> dst[j] == RightWord(was, bits, shift, j)
      invariant dst[lim..] == old(dst[lim..])
    {
      dst[j] := 0;
    }
    RightValue(was, dst[..lim], bits, shift);
  }

  lemma RightValue(src: seq<Word>, dst: seq<Word>, bits: nat, shift: nat)
    requires |src| == |dst| == Longs(bits) && shift / 64 <= Longs(bits)
    requires forall j :: 0 <= j < Longs(bits) - shift / 64 ==> dst[j] == RightWord(src, bits, shift, j)
    requires forall j :: Longs(bits) - shift / 64 <= j < Longs(bits) ==> dst[j] == 0
    ensures Value(dst) == (Value(src) % Pow2(bits)) / Pow2(shift)
  {
    hide Bit, And, Or, Shl, Shr, Low, Pow2, RightWord, Value;
    var lim, off := Longs(bits), shift / 64;
    var low := Low(Value(src), bits);
    var v := Shr(low, shift);
    forall q | 0 <= q < 64 * |dst|
      ensures BitAt(dst, q) == (q < bits && Bit(v, q))
    {
      var j, i := q / 64, q % 64;
      BitShr(low, shift, q);
      BitLow(Value(src), bits, q + shift);
      BitValue(src, q + shift);
      if j < lim - off {
        BitRightWord(src, bits, shift, j, i);
      } else {
        BitZero(i);
      }
    }
    Split(Value(src), bits);
    ShrLess(low, shift);
    ValueFromBits(dst, v, bits);
    ShrIsQuotient(Value(src), bits);
    ShrIsQuotient(low, shift);
  }

  /** bitmap_shift_right on a one-word bitmap: no masking of unused bits. */
  method ShiftRightInline(dst: array<Word>, src: array<Word>, n: nat, nbits: nat)
    requires dst.Length >= Longs(nbits) && src.Length >= Longs(nbits)
    requires dst.Length >= 1 && src.Length >= 1 && n <= nbits && (nbits <= 64 ==> n < 64)
    modifies dst
    ensures nbits <= 64 ==> dst[..] == old(dst[..])[0 := Shr(old(src[0]), n)]
    ensures nbits > 64 ==> Value(dst[..Longs(nbits)]) == (old(Value(src[..Longs(nbits)])) % Pow2(nbits)) / Pow2(n)
  {
    if nbits <= 64 {
      dst[0] := ShrW(src[0], n);
    } else {
      ShiftRight(dst, src, n, nbits);
    }
  }

  /** The one-word form agrees with the multi-word form exactly when no unused bit is set. */
  lemma OneWordShiftRight(w: Word, n: nat, nbits: nat)
    requires n <= nbits <= 64 && n < 64
    ensures Shr(w, n) == (w % Pow2(nbits)) / Pow2(n) <==> w < Pow2(nbits)
  {
    hide Bit, Shr, Low, Pow2;
    var low := Low(w, nbits);
    ShrIsQuotient(w, nbits);
    ShrIsQuotient(low, n);
    if w < Pow2(nbits) {
      LowSmall(w, nbits);
    } else {
      Pow2Values();
      Split(w, nbits);
      assert Shr(w, nbits) > 0 by {
        if Shr(w, nbits) == 0 { ShlIsProduct(0, nbits); }
      }
      ShrBound(w, nbits, 64 - nbits);
      var i := NonzeroBit(Shr(w, nbits), 64 - nbits);
      BitShr(w, nbits, i);
      var j := i + nbits - n;
      BitShr(w, n, j);
      BitShr(low, n, j);
      BitLow(w, nbits, j + n);
    }
  }

  // ---- tests and counts: the answer depends on the bits below `bits` only

  /** A word under the last-word mask, or a whole word, is zero exactly when its used bits are. */
  lemma MaskedZero(w: Word, bits: nat)
    requires bits % 64 != 0
    ensures AndW(w, LastWordMask(bits)) == 0 <==> forall i :: 0 <= i < bits % 64 ==> !Bit(w, i)
  {
    hide Bit, And, Low, Pow2;
    var n := bits % 64;
    var low := Low(w, n);
    AndOnes(w, n);
    Split(w, n);
    if low == 0 {
      forall i | 0 <= i < n
        ensures !Bit(w, i)
      {
        BitLow(w, n, i);
        BitZero(i);
      }
    } else {
      var i := NonzeroBit(low, n);
      BitLow(w, n, i);
      assert Bit(w, i);
    }
  }

  lemma WordZero(w: nat, n: nat)
    requires w < Pow2(n)
    ensures w == 0 ==> forall i :: 0 <= i < n ==> !Bit(w, i)
    ensures w != 0 ==> exists i :: 0 <= i < n && Bit(w, i)
  {
    hide Pow2;
    if w == 0 {
      forall i | 0 <= i < n
        ensures !Bit(w, i)
      {
        BitZero(i);
      }
    } else {
      var i := NonzeroBit(w, n);
      assert Bit(w, i);
    }
  }

  /** All used bits of `ws` are clear. */
  ghost predicate Clear(ws: seq<Word>, bits: nat) {
    forall q :: 0 <= q < bits ==> !BitAt(ws, q)
  }

  ghost predicate AllSet(ws: seq<Word>, bits: nat) {
    forall q :: 0 <= q < bits ==> q in BitSet(ws, bits)
  }

  /** One more whole word. */
  lemma ClearStep(ws: seq<Word>, k: nat)
    requires k < |ws|
    ensures Clear(ws, 64 * (k + 1)) <==> Clear(ws, 64 * k) && ws[k] == 0
  {
    hide Bit, Pow2;
    Pow2Values();
    WordZero(ws[k], 64);
    ClearWord(ws, k, 64);
  }

  /** The used part of the last word. */
  lemma ClearTail(ws: seq<Word>, bits: nat)
    requires bits % 64 != 0 && bits / 64 < |ws|
    ensures Clear(ws, bits) <==> Clear(ws, 64 * (bits / 64)) && AndW(ws[bits / 64], LastWordMask(bits)) == 0
  {
    hide Bit, And, AndW, LastWordMask;
    MaskedZero(ws[bits / 64], bits);
    ClearWord(ws, bits / 64, bits % 64);
  }

  lemma ClearWord(ws: seq<Word>, k: nat, n: nat)
    requires k < |ws| && n <= 64
    ensures Clear(ws, 64 * k + n) <==> Clear(ws, 64 * k) && forall i :: 0 <= i < n ==> !Bit(ws[k], i)
  {
    hide Bit;
    if Clear(ws, 64 * k + n) {
      forall i | 0 <= i < n
        ensures !Bit(ws[k], i)
      {
        assert !BitAt(ws, 64 * k + i);
        assert (64 * k + i) / 64 == k && (64 * k + i) % 64 == i;
      }
    } else {
      var q :| 0 <= q < 64 * k + n && BitAt(ws, q);
      if q >= 64 * k {
        assert q / 64 == k && q % 64 == q - 64 * k;
        assert Bit(ws[k], q % 64);
      }
    }
  }

  /** __bitmap_empty, with the one-word form of bitmap_empty. */
  method Empty(bitmap: array<Word>, bits: nat) returns (r: bool)
    requires bitmap.Length >= Longs(bits)
    ensures r <==> BitSet(bitmap[..], bits) == {}
  {
    hide Bit, And, AndW, LastWordMask, BitAt;
    ghost var ws := bitmap[..];
    var lim := bits / 64;
    ClearIsEmpty(ws, bits);
    for k := 0 to lim
      invariant Clear(ws, 64 * k)
    {
      ClearStep(ws, k);
      if bitmap[k] != 0 {
        ClearMono(ws, 64 * (k + 1), bits);
        return false;
      }
    }
    if bits % 64 != 0 {
      ClearTail(ws, bits);
      if AndW(bitmap[lim], LastWordMask(bits)) != 0 { return false; }
    }
    return true;
  }

  lemma ClearIsEmpty(ws: seq<Word>, bits: nat)
    ensures Clear(ws, bits) <==> BitSet(ws, bits) == {}
  {
    hide BitAt;
    if !Clear(ws, bits) {
      var q :| 0 <= q < bits && BitAt(ws, q);
      assert q in BitSet(ws, bits);
    } else {
      assert forall q :: q in BitSet(ws, bits) ==> BitAt(ws, q);
    }
  }

  lemma ClearMono(ws: seq<Word>, m: nat, n: nat)
    requires m <= n
    ensures Clear(ws, n) ==> Clear(ws, m)
  {
  }

  lemma {:induction false} XorZero(a: nat, b: nat)
    ensures Xor(a, b) == 0 <==> a == b
    decreases a + b
  {
    if a != 0 || b != 0 { XorZero(a / 2, b / 2); }
  }

  /** The words of both operands combined; the tests below look at these. */
  ghost function Differing(a: seq<Word>, b: seq<Word>): seq<Word> {
    seq(Shorter(a, b), k requires 0 <= k < Shorter(a, b) => XorW(a[k], b[k]))
  }

  ghost function Common(a: seq<Word>, b: seq<Word>): seq<Word> {
    seq(Shorter(a, b), k requires 0 <= k < Shorter(a, b) => AndW(a[k], b[k]))
  }

  function Shorter(a: seq<Word>, b: seq<Word>): (n: nat)
    ensures n <= |a| && n <= |b| && (n == |a| || n == |b|)
  {
    if |a| <= |b| then |a| else |b|
  }

  ghost function Missing(a: seq<Word>): seq<Word> {
    seq(|a|, k requires 0 <= k < |a| => NotW(a[k]))
  }

  lemma BitCombined(a: seq<Word>, b: seq<Word>, q: nat)
    requires q < 64 * |a| && q < 64 * |b|
    ensures BitAt(Differing(a, b), q) == (BitAt(a, q) != BitAt(b, q))
    ensures BitAt(Common(a, b), q) == (BitAt(a, q) && BitAt(b, q))
    ensures BitAt(Missing(a), q) == !BitAt(a, q)
  {
    hide Bit, And, Xor;
    BitXor(a[q / 64], b[q / 64], q % 64);
    BitAnd(a[q / 64], b[q / 64], q % 64);
    BitNotW(a[q / 64], q % 64);
  }

  lemma CombinedSets(a: seq<Word>, b: seq<Word>, bits: nat)
    requires bits <= 64 * |a| && bits <= 64 * |b|
    ensures Clear(Differing(a, b), bits) <==> BitSet(a, bits) == BitSet(b, bits)
    ensures Clear(Common(a, b), bits) <==> BitSet(a, bits) * BitSet(b, bits) == {}
    ensures Clear(Missing(a), bits) <==> AllSet(a, bits)
  {
    hide BitAt;
    forall q: nat | 0 <= q < bits
      ensures BitAt(Differing(a, b), q) == (BitAt(a, q) != BitAt(b, q))
      ensures BitAt(Common(a, b), q) == (BitAt(a, q) && BitAt(b, q))
      ensures BitAt(Missing(a), q) == !BitAt(a, q)
    {
      BitCombined(a, b, q);
    }
    if !Clear(Differing(a, b), bits) {
      var q :| 0 <= q < bits && BitAt(Differing(a, b), q);
      assert q in BitSet(a, bits) <==> q !in BitSet(b, bits);
    } else {
      assert BitSet(a, bits) == BitSet(b, bits);
    }
    if !Clear(Common(a, b), bits) {
      var q :| 0 <= q < bits && BitAt(Common(a, b), q);
      assert q in BitSet(a, bits) * BitSet(b, bits);
    }
    if !Clear(Missing(a), bits) {
      var q :| 0 <= q < bits && BitAt(Missing(a), q);
      assert q !in BitSet(a, bits);
    } else {
      forall q | 0 <= q < bits
        ensures q in BitSet(a, bits)
      {
        assert !BitAt(Missing(a), q);
      }
    }
  }

  /** __bitmap_full */
  method Full(bitmap: array<Word>, bits: nat) returns (r: bool)
    requires bitmap.Length >= Longs(bits)
    ensures r <==> AllSet(bitmap[..], bits)
  {
    hide Bit, And, AndW, LastWordMask, BitAt, BitSet;
    ghost var ws := Missing(bitmap[..]);
    var lim := bits / 64;
    CombinedSets(bitmap[..], bitmap[..], bits);
    for k := 0 to lim
      invariant Clear(ws, 64 * k)
    {
      ClearStep(ws, k);
      if NotW(bitmap[k]) != 0 {
        ClearMono(ws, 64 * (k + 1), bits);
        return false;
      }
    }
    if bits % 64 != 0 {
      ClearTail(ws, bits);
      if AndW(NotW(bitmap[lim]), LastWordMask(bits)) != 0 { return false; }
    }
    return true;
  }

  /** __bitmap_equal */
  method Equal(bitmap1: array<Word>, bitmap2: array<Word>, bits: nat) returns (r: bool)
    requires bitmap1.Length >= Longs(bits) && bitmap2.Length >= Longs(bits)
    ensures r <==> BitSet(bitmap1[..], bits) == BitSet(bitmap2[..], bits)
  {
    hide Bit, And, AndW, Xor, LastWordMask, BitAt, BitSet;
    ghost var ws := Differing(bitmap1[..], bitmap2[..]);
    var lim := bits / 64;
    CombinedSets(bitmap1[..], bitmap2[..], bits);
    for k := 0 to lim
      invariant Clear(ws, 64 * k)
    {
      ClearStep(ws, k);
      XorZero(bitmap1[k], bitmap2[k]);
      if bitmap1[k] != bitmap2[k] {
        ClearMono(ws, 64 * (k + 1), bits);
        return false;
      }
    }
    if bits % 64 != 0 {
      ClearTail(ws, bits);
      if AndW(XorW(bitmap1[lim], bitmap2[lim]), LastWordMask(bits)) != 0 { return false; }
    }
    return true;
  }

  /** __bitmap_intersects */
  method Intersects(bitmap1: array<Word>, bitmap2: array<Word>, bits: nat) returns (r: bool)
    requires bitmap1.Length >= Longs(bits) && bitmap2.Length >= Longs(bits)
    ensures r <==> BitSet(bitmap1[..], bits) * BitSet(bitmap2[..], bits) != {}
  {
    hide Bit, And, AndW, LastWordMask, BitAt, BitSet;
    ghost var ws := Common(bitmap1[..], bitmap2[..]);
    var lim := bits / 64;
    CombinedSets(bitmap1[..], bitmap2[..], bits);
    for k := 0 to lim
      invariant Clear(ws, 64 * k)
    {
      ClearStep(ws, k);
      if AndW(bitmap1[k], bitmap2[k]) != 0 {
        ClearMono(ws, 64 * (k + 1), bits);
        return true;
      }
    }
    if bits % 64 != 0 {
      ClearTail(ws, bits);
      if AndW(AndW(bitmap1[lim], bitmap2[lim]), LastWordMask(bits)) != 0 { return true; }
    }
    return false;
  }

  /** The population of a bitmap is the population of the number it denotes. */
  lemma WeightIsPop(ws: seq<Word>, bits: nat)
    requires bits <= 64 * |ws|
    ensures |BitSet(ws, bits)| == Pop(Low(Value(ws), bits))
  {
    hide Bit, Value, Low, BitAt, Pow2, Pop;
    var v := Low(Value(ws), bits);
    Split(Value(ws), bits);
    PopIsCardinality(v, bits);
    forall q: nat | 0 <= q < bits
      ensures BitAt(ws, q) == Bit(v, q)
    {
      BitValue(ws, q);
      BitLow(Value(ws), bits, q);
    }
    assert BitSet(ws, bits) == Ones(v, bits);
  }

  lemma PopStep(ws: seq<Word>, k: nat, n: nat)
    requires k < |ws| && n <= 64
    ensures Pop(Low(Value(ws), 64 * k + n)) == Pop(Low(Value(ws), 64 * k)) + Pop(Low(ws[k], n))
  {
    hide Bit, Value, Low, BitAt, Pow2, Pop, Shl;
    var v := Value(ws);
    var low, top := Low(v, 64 * k), Low(ws[k], n);
    Split(v, 64 * k);
    Split(v, 64 * k + n);
    Split(ws[k], n);
    PopAppend(low, top, 64 * k);
    var joined := low + Shl(top, 64 * k);
    ShlBound(top, 64 * k, n);
    forall i | 0 <= i < 64 * k + n
      ensures Bit(Low(v, 64 * k + n), i) == Bit(joined, i)
    {
      BitAppend(low, top, 64 * k, i);
      BitLow(v, 64 * k + n, i);
      BitLow(v, 64 * k, i);
      if i >= 64 * k {
        BitLow(ws[k], n, i - 64 * k);
        BitValue(ws, i);
        assert BitAt(ws, i) == Bit(ws[k], i - 64 * k) by { InWord(ws, k, i); }
      }
    }
    BitsDetermine(Low(v, 64 * k + n), joined, 64 * k + n);
  }

  lemma InWord(ws: seq<Word>, k: nat, q: nat)
    requires k < |ws| && 64 * k <= q < 64 * k + 64
    ensures BitAt(ws, q) == Bit(ws[k], q - 64 * k)
  {
    assert q / 64 == k && q % 64 == q - 64 * k;
  }

  /** __bitmap_weight */
  method Weight(bitmap: array<Word>, bits: nat) returns (w: nat)
    requires bitmap.Length >= Longs(bits)
    ensures w == |BitSet(bitmap[..], bits)|
  {
    hide Bit, And, Value, Low, Pop, Pow2, Ones, Popcount.Ones, BitSet, BitAt;
    ghost var ws := bitmap[..];
    var lim := bits / 64;
    w := 0;
    PopLowZero(Value(ws));
    for k := 0 to lim
      invariant w == Pop(Low(Value(ws), 64 * k))
    {
      var one := HWeight64(bitmap[k]);
      w := w + one;
      Pow2Values();
      LowSmall(ws[k], 64);
      PopStep(ws, k, 64);
    }
    if bits % 64 != 0 {
      AndOnes(ws[lim], bits % 64);
      PopStep(ws, lim, bits % 64);
      var one := HWeight64(AndW(bitmap[lim], LastWordMask(bits)));
      w := w + one;
    }
    WeightIsPop(ws, bits);
  }

  lemma PopLowZero(v: nat)
    ensures Pop(Low(v, 0)) == 0
  {
  }

  // ---- the one-word forms in bitmap.h

  lemma NothingClear(ws: seq<Word>)
    ensures Clear(ws, 0)
  {
  }

  lemma FullMask(w: Word)
    ensures AndW(w, LastWordMask(64)) == w
  {
    hide And, Low, Pow2;
    Pow2Values();
    AndOnes(w, 64);
    LowSmall(w, 64);
  }

  lemma OneWord(ws: seq<Word>, nbits: nat)
    requires |ws| >= 1 && 1 <= nbits <= 64
    ensures Clear(ws, nbits) <==> AndW(ws[0], LastWordMask(nbits)) == 0
  {
    hide *;
    NothingClear(ws);
    if nbits == 64 {
      Pow2Values();
      FullMask(ws[0]);
      ClearStep(ws, 0);
    } else {
      ClearTail(ws, nbits);
    }
  }

  method EmptyInline(src: array<Word>, nbits: nat) returns (r: bool)
    requires src.Length >= Longs(nbits) >= 1
    ensures r <==> BitSet(src[..], nbits) == {}
  {
    hide And, AndW, LastWordMask, BitSet;
    if nbits <= 64 {
      OneWord(src[..], nbits);
      ClearIsEmpty(src[..], nbits);
      return AndW(src[0], LastWordMask(nbits)) == 0;
    }
    r := Empty(src, nbits);
  }

  method FullInline(src: array<Word>, nbits: nat) returns (r: bool)
    requires src.Length >= Longs(nbits) >= 1
    ensures r <==> AllSet(src[..], nbits)
  {
    hide And, AndW, LastWordMask, BitSet;
    if nbits <= 64 {
      OneWord(Missing(src[..]), nbits);
      CombinedSets(src[..], src[..], nbits);
      return AndW(NotW(src[0]), LastWordMask(nbits)) == 0;
    }
    r := Full(src, nbits);
  }

  method EqualInline(src1: array<Word>, src2: array<Word>, nbits: nat) returns (r: bool)
    requires src1.Length >= Longs(nbits) && src2.Length >= Longs(nbits) >= 1
    ensures r <==> BitSet(src1[..], nbits) == BitSet(src2[..], nbits)
  {
    hide And, AndW, Xor, LastWordMask, BitSet;
    if nbits <= 64 {
      OneWord(Differing(src1[..], src2[..]), nbits);
      CombinedSets(src1[..], src2[..], nbits);
      return AndW(XorW(src1[0], src2[0]), LastWordMask(nbits)) == 0;
    }
    r := Equal(src1, src2, nbits);
  }

  method IntersectsInline(src1: array<Word>, src2: array<Word>, nbits: nat) returns (r: bool)
    requires src1.Length >= Longs(nbits) && src2.Length >= Longs(nbits) >= 1
    ensures r <==> BitSet(src1[..], nbits) * BitSet(src2[..], nbits) != {}
  {
    hide And, AndW, LastWordMask, BitSet;
    if nbits <= 64 {
      OneWord(Common(src1[..], src2[..]), nbits);
      CombinedSets(src1[..], src2[..], nbits);
      return AndW(AndW(src1[0], src2[0]), LastWordMask(nbits)) != 0;
    }
    r := Intersects(src1, src2, nbits);
  }

  method WeightInline(src: array<Word>, nbits: nat) returns (w: nat)
    requires src.Length >= Longs(nbits) >= 1
    ensures w == |BitSet(src[..], nbits)|
  {
    hide Bit, And, Value, Low, Pop, Pow2, Popcount.Ones, BitSet, BitAt;
    if nbits <= 64 {
      w := HWeight64(AndW(src[0], LastWordMask(nbits)));
      PopLowZero(Value(src[..]));
      Pow2Values();
      AndOnes(src[0], nbits);
      PopStep(src[..], 0, nbits);
      WeightIsPop(src[..], nbits);
      return;
    }
    w := Weight(src, nbits);
  }

  // ---- single bits (non-atomic.h)

  lemma OneBitWord(i: nat)
    requires i < 64
    ensures Shl(1, i) < 0x1_0000_0000_0000_0000
  {
    Pow2Values();
    ShlIsProduct(1, i);
    Pow2Mono(i, 63);
    assert Pow2(64) == 2 * Pow2(63);
  }

  lemma BitOfOne(i: nat, j: nat)
    ensures Bit(Shl(1, i), j) == (i == j)
  {
    BitShl(1, i, j);
    if j > i { BitHigh(1, 1, j - i); }
  }

  method SetBit(nr: nat, addr: array<Word>)
    requires nr < 64 * addr.Length
    modifies addr
    ensures forall q :: 0 <= q < 64 * addr.Length ==> BitAt(addr[..], q) == (q == nr || old(BitAt(addr[..], q)))
  {
    hide Bit, Or, Shl;
    ghost var was := addr[..];
    var word, i := nr / 64, nr % 64;
    OneBitWord(i);
    var mask: Word := Shl(1, i);
    addr[word] := OrW(addr[word], mask);
    forall q | 0 <= q < 64 * addr.Length
      ensures BitAt(addr[..], q) == (q == nr || BitAt(was, q))
    {
      if q / 64 == word {
        BitOr(was[word], mask, q % 64);
        BitOfOne(i, q % 64);
      }
    }
  }

  method ClearBit(nr: nat, addr: array<Word>)
    requires nr < 64 * addr.Length
    modifies addr
    ensures forall q :: 0 <= q < 64 * addr.Length ==> BitAt(addr[..], q) == (q != nr && old(BitAt(addr[..], q)))
  {
    hide Bit, And, Shl;
    ghost var was := addr[..];
    var word, i := nr / 64, nr % 64;
    OneBitWord(i);
    var mask: Word := Shl(1, i);
    addr[word] := AndW(addr[word], NotW(mask));
    forall q | 0 <= q < 64 * addr.Length
      ensures BitAt(addr[..], q) == (q != nr && BitAt(was, q))
    {
      if q / 64 == word {
        BitAnd(was[word], NotW(mask), q % 64);
        BitNotW(mask, q % 64);
        BitOfOne(i, q % 64);
      }
    }
  }

  method TestBit(nr: nat, addr: array<Word>) returns (r: bool)
    requires nr < 64 * addr.Length
    ensures r == BitAt(addr[..], nr)
  {
    r := AndW(1, ShrW(addr[nr / 64], nr % 64)) == 1;
    ghost var w := addr[nr / 64];
    BitShr(w, nr % 64, 0);
    AndStep(1, Shr(w, nr % 64));
    AndZero(Shr(w, nr % 64) / 2);
  }
}
