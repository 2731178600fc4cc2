/** The parallel popcount of bitmap.h: fields of 2, 4 and 8 bits, then one multiplication. */
module Popcount {
  import opened Bits

  /** The number of set bits. */
  function Pop(v: nat): nat
    decreases v
  {
    if v == 0 then 0 else v % 2 + Pop(v / 2)
  }

  /** Pop is the cardinality of the set of bit positions. */
  ghost function Ones(v: nat, n: nat): set<nat> {
    set i: nat | 0 <= i < n && Bit(v, i)
  }

  lemma {:induction false} PopIsCardinality(v: nat, n: nat)
    requires v < Pow2(n)
    ensures Pop(v) == |Ones(v, n)|
    decreases n
  {
    if n == 0 {
      assert Ones(v, 0) == {};
    } else {
      PopIsCardinality(v / 2, n - 1);
      var half := Ones(v / 2, n - 1);
      var up := set i | i in half :: i + 1;
      SuccCard(half, up);
      OnesAbove(v, n);
      hide Ones;
      if v % 2 == 1 {
        assert Ones(v, n) == {0} + up;
      } else {
        assert Ones(v, n) == up;
      }
    }
  }

  /** Bit i + 1 of a number is bit i of its half. */
  lemma OnesAbove(v: nat, n: nat)
    requires n > 0
    ensures forall i: nat :: i in Ones(v, n) <==> (i == 0 && v % 2 == 1) || (i > 0 && i - 1 in Ones(v / 2, n - 1))
  {
  }

  lemma {:induction false} SuccCard(s: set<nat>, up: set<nat>)
    requires up == set i | i in s :: i + 1
    ensures |up| == |s|
    decreases s
  {
    if s != {} {
      var x :| x in s;
      var s' := s - {x};
      var up' := set i | i in s' :: i + 1;
      SuccCard(s', up');
      forall i: nat | i in up
        ensures i in up' + {x + 1}
      {
        assert i - 1 in s;
        assert i - 1 in s' || i - 1 == x;
      }
      assert up == up' + {x + 1};
      assert x + 1 !in up';
    } else {
      assert up == {};
    }
  }

  lemma {:induction false} PopAppend(lo: nat, hi: nat, n: nat)
    requires lo < Pow2(n)
    ensures Pop(lo + Shl(hi, n)) == Pop(lo) + Pop(hi)
    decreases n
  {
    if n > 0 {
      PopAppend(lo / 2, hi, n - 1);
      var v := lo + Shl(hi, n);
      assert v / 2 == lo / 2 + Shl(hi, n - 1);
      assert v % 2 == lo % 2;
    }
  }

  // Constants with one pattern per field, and the field values after each stage.

  function Rep1(n: nat): nat { if n == 0 then 0 else 1 + 4 * Rep1(n - 1) }
  function Rep3(n: nat): nat { if n == 0 then 0 else 3 + 16 * Rep3(n - 1) }
  function Rep15(n: nat): nat { if n == 0 then 0 else 15 + 256 * Rep15(n - 1) }

  function Fields4(w: nat, n: nat): nat { if n == 0 then 0 else Pop(w % 4) + 4 * Fields4(w / 4, n - 1) }
  function Fields16(w: nat, n: nat): nat { if n == 0 then 0 else Pop(w % 16) + 16 * Fields16(w / 16, n - 1) }
  function Fields256(w: nat, n: nat): nat { if n == 0 then 0 else Pop(w % 256) + 256 * Fields256(w / 256, n - 1) }

  lemma PopPair(d: nat)
    requires d < 4
    ensures Pop(d) == d - d / 2
  {
    assert Pop(d) == d % 2 + Pop(d / 2);
  }

  lemma AndOdd(v: nat, m: nat)
    ensures And(v, 2 * m + 1) == v % 2 + 2 * And(v / 2, m)
  {
    hide *;
    AndStep(v, 2 * m + 1);
    DivModUnique(2 * m + 1, 2, m, 1);
  }

  lemma AndEven(v: nat, m: nat)
    ensures And(v, 2 * m) == 2 * And(v / 2, m)
  {
    hide *;
    AndStep(v, 2 * m);
    DivModUnique(2 * m, 2, m, 0);
  }

  lemma AndOne(v: nat, r: nat)
    ensures And(v, 1 + 4 * r) == v % 2 + 4 * And(v / 4, r)
  {
    hide *;
    Halves(v);
    AndOdd(v, 2 * r);
    AndEven(v / 2, r);
  }

  lemma Halves(v: nat)
    ensures v / 2 / 2 == v / 4 && v % 4 == v % 2 + 2 * ((v / 2) % 2)
  {
  }

  lemma Quarters(v: nat)
    ensures v / 4 / 4 == v / 16 && v % 16 == v % 4 + 4 * ((v / 4) % 4)
  {
  }

  lemma Nibbles(v: nat)
    ensures v / 16 / 16 == v / 256 && v % 256 == v % 16 + 16 * ((v / 16) % 16)
  {
  }

  lemma AndThree(v: nat, r: nat)
    ensures And(v, 3 + 16 * r) == v % 4 + 16 * And(v / 16, r)
  {
    hide *;
    Halves(v);
    Quarters(v);
    AndOdd(v, 1 + 8 * r);
    AndOdd(v / 2, 4 * r);
    AndFour(v / 4, r);
  }

  lemma AndFour(v: nat, r: nat)
    ensures And(v, 4 * r) == 4 * And(v / 4, r)
  {
    hide *;
    Halves(v);
    AndEven(v, 2 * r);
    AndEven(v / 2, r);
    assert 2 * (2 * r) == 4 * r;
    assert And(v, 4 * r) == 2 * (2 * And(v / 2 / 2, r));
  }

  lemma AndFifteen(v: nat, r: nat)
    ensures And(v, 15 + 256 * r) == v % 16 + 256 * And(v / 256, r)
  {
    hide *;
    Halves(v);
    Quarters(v);
    Quarters(v / 16);
    Nibbles(v);
    Commute(v);
    AndOdd(v, 7 + 128 * r);
    AndOdd(v / 2, 3 + 64 * r);
    AndThree(v / 4, 4 * r);
    AndFour(v / 16 / 4, r);
  }

  lemma Commute(v: nat)
    ensures v / 4 / 16 == v / 16 / 4
  {
  }

  /** Closed forms of the three pattern constants. */
  lemma {:induction false} Patterns(n: nat)
    ensures 3 * Rep1(n) + 1 == Pow2(2 * n)
    ensures 5 * Rep3(n) + 1 == Pow2(4 * n)
    ensures 17 * Rep15(n) + 1 == Pow2(8 * n)
  {
    hide *;
    if n > 0 {
      Patterns(n - 1);
      Unroll(0, n);
      SmallPowers();
      Pow2Add(2, 2 * (n - 1));
      Pow2Add(4, 4 * (n - 1));
      Pow2Add(8, 8 * (n - 1));
      assert 2 + 2 * (n - 1) == 2 * n && 4 + 4 * (n - 1) == 4 * n && 8 + 8 * (n - 1) == 8 * n;
    } else {
      UnrollZero(0);
    }
  }

  lemma Unroll(w: nat, n: nat)
    requires n > 0
    ensures Rep1(n) == 1 + 4 * Rep1(n - 1)
    ensures Rep3(n) == 3 + 16 * Rep3(n - 1)
    ensures Rep15(n) == 15 + 256 * Rep15(n - 1)
    ensures Fields4(w, n) == Pop(w % 4) + 4 * Fields4(w / 4, n - 1)
    ensures Fields16(w, n) == Pop(w % 16) + 16 * Fields16(w / 16, n - 1)
    ensures Fields256(w, n) == Pop(w % 256) + 256 * Fields256(w / 256, n - 1)
    ensures ByteSum(w, n) == Pop(w % 256) + ByteSum(w / 256, n - 1)
    ensures n == 1 ==> Fields256(w, n) == ByteSum(w, n) == Pop(w % 256)
  {
  }

  lemma UnrollZero(w: nat)
    ensures Rep1(0) == Rep3(0) == Rep15(0) == 0
    ensures Fields4(w, 0) == Fields16(w, 0) == Fields256(w, 0) == 0
    ensures And(w, 0) == 0
    ensures Pow2(0) == 1
  {
  }

  lemma {:induction false} Stage1(w: nat, n: nat)
    requires w < Pow2(2 * n)
    ensures And(w / 2, Rep1(n)) <= w
    ensures w - And(w / 2, Rep1(n)) == Fields4(w, n)
    decreases n
  {
    hide *;
    if n > 0 {
      FourTimes(2 * (n - 1));
      Unroll(w, n);
      AndOne(w / 2, Rep1(n - 1));
      Pairs(w);
      Stage1(w / 4, n - 1);
      PopPair(w % 4);
    } else {
      UnrollZero(w);
      UnrollZero(w / 2);
    }
  }

  lemma Pairs(w: nat)
    ensures w / 2 / 4 == w / 4 / 2 && (w / 2) % 2 == (w % 4) / 2
    ensures w == w % 4 + 4 * (w / 4) && w % 4 < 4
  {
    hide *;
    Halves(w);
    Halves(w / 2);
    DivModUnique(w % 4, 2, (w / 2) % 2, w % 2);
  }

  lemma FourTimes(m: nat)
    ensures Pow2(m + 2) == 4 * Pow2(m)
  {
  }

  lemma {:induction false} Stage2(w: nat, n: nat)
    ensures And(Fields4(w, 2 * n), Rep3(n)) + And(Fields4(w, 2 * n) / 4, Rep3(n)) == Fields16(w, n)
    decreases n
  {
    hide *;
    var x := Fields4(w, 2 * n);
    if n > 0 {
      var rest := Fields4(w / 16, 2 * (n - 1));
      var d0, d1 := Pop(w % 4), Pop((w / 4) % 4);
      Quarters(w);
      Unroll(w, 2 * n);
      Unroll(w / 4, 2 * n - 1);
      Unroll(w, n);
      assert x == d0 + 4 * (d1 + 4 * rest);
      PopNibble(w);
      AndThree(x, Rep3(n - 1));
      AndThree(x / 4, Rep3(n - 1));
      TwoFields(x, d0, d1, rest);
      Stage2(w / 16, n - 1);
    } else {
      UnrollZero(w);
      UnrollZero(x);
      UnrollZero(x / 4);
    }
  }

  lemma TwoFields(x: nat, d0: nat, d1: nat, rest: nat)
    requires d0 <= 2 && d1 <= 2 && x == d0 + 4 * (d1 + 4 * rest)
    ensures x % 4 == d0 && x / 16 == rest && (x / 4) % 4 == d1 && x / 4 / 16 == rest / 4
  {
    hide *;
    DivModUnique(x, 4, d1 + 4 * rest, d0);
    DivModUnique(d1 + 4 * rest, 4, rest, d1);
    Quarters(x);
    Commute(x);
  }

  lemma PopNibble(w: nat)
    ensures Pop(w % 16) == Pop(w % 4) + Pop((w / 4) % 4) <= 4
    ensures Pop(w % 4) <= 2 && Pop((w / 4) % 4) <= 2
  {
    hide *;
    SmallPowers();
    PopPair(w % 4);
    PopPair((w / 4) % 4);
    ShlIsProduct((w / 4) % 4, 2);
    PopAppend(w % 4, (w / 4) % 4, 2);
    Quarters(w);
  }

  /** After the second stage every 4-bit field holds at most 4. */
  lemma LowField(w: nat, n: nat)
    ensures Fields16(w, n) % 16 <= 4
  {
    hide *;
    if n > 0 {
      Unroll(w, n);
      PopNibble(w);
    } else {
      UnrollZero(w);
    }
  }

  lemma {:induction false} Stage3(w: nat, n: nat)
    ensures And(Fields16(w, 2 * n) + Fields16(w, 2 * n) / 16, Rep15(n)) == Fields256(w, n)
    decreases n
  {
    hide *;
    var y := Fields16(w, 2 * n);
    var z := y + y / 16;
    if n > 0 {
      var rest := Fields16(w / 256, 2 * (n - 1));
      var d0, d1 := Pop(w % 16), Pop((w / 16) % 16);
      Nibbles(w);
      Unroll(w, 2 * n);
      Unroll(w / 16, 2 * n - 1);
      Unroll(w, n);
      assert y == d0 + 16 * (d1 + 16 * rest);
      PopNibble(w);
      PopNibble(w / 16);
      LowField(w / 256, 2 * (n - 1));
      FoldedFields(y, d0, d1, rest);
      ByteSplit(w);
      AndFifteen(z, Rep15(n - 1));
      Stage3(w / 256, n - 1);
    } else {
      UnrollZero(w);
      UnrollZero(z);
    }
  }

  lemma FoldedFields(y: nat, d0: nat, d1: nat, rest: nat)
    requires d0 <= 4 && d1 <= 4 && rest % 16 <= 4 && y == d0 + 16 * (d1 + 16 * rest)
    ensures (y + y / 16) % 16 == d0 + d1 && (y + y / 16) / 256 == rest + rest / 16
  {
    hide *;
    var z := y + y / 16;
    DivModUnique(y, 16, d1 + 16 * rest, d0);
    var q, m := rest / 16, rest % 16;
    assert rest == 16 * q + m;
    DivModUnique(z, 16, d1 + rest + 16 * rest, d0 + d1);
    DivModUnique(d1 + rest + 16 * rest, 16, q + rest, d1 + m);
    Nibbles(z);
  }

  lemma ByteSplit(w: nat)
    ensures Pop(w % 256) == Pop(w % 16) + Pop((w / 16) % 16)
  {
    hide *;
    SmallPowers();
    ShlIsProduct((w / 16) % 16, 4);
    PopAppend(w % 16, (w / 16) % 16, 4);
    Nibbles(w);
  }

  lemma {:induction false} SumOfBytes(w: nat, n: nat)
    requires w < Pow2(8 * n)
    ensures Pop(w) == ByteSum(w, n)
    decreases n
  {
    hide *;
    SmallPowers();
    if n > 0 {
      Pow2Add(8, 8 * (n - 1));
      assert 8 + 8 * (n - 1) == 8 * n;
      SumOfBytes(w / 256, n - 1);
      ShlIsProduct(w / 256, 8);
      PopAppend(w % 256, w / 256, 8);
      Unroll(w, n);
    } else {
      NoBytes(w);
    }
  }

  lemma NoBytes(w: nat)
    requires w < Pow2(8 * 0)
    ensures Pop(w) == ByteSum(w, 0)
  {
  }

  function ByteSum(w: nat, n: nat): nat { if n == 0 then 0 else Pop(w % 256) + ByteSum(w / 256, n - 1) }

  lemma PopByte(w: nat)
    ensures Pop(w % 256) <= 8
  {
    ByteSplit(w);
    PopNibble(w);
    PopNibble(w / 16);
  }

  /** The multiplication gathers the byte sum in the top byte. */
  lemma GatherBytes(w: nat)
    ensures ((Fields256(w, 8) * 0x0101010101010101) % 0x1_0000_0000_0000_0000) / 0x100_0000_0000_0000 == ByteSum(w, 8)
  {
    var w1 := w / 256;
    var w2 := w1 / 256;
    var w3 := w2 / 256;
    var w4 := w3 / 256;
    var w5 := w4 / 256;
    var w6 := w5 / 256;
    var w7 := w6 / 256;
    hide *;
    PopByte(w); PopByte(w1); PopByte(w2); PopByte(w3);
    PopByte(w4); PopByte(w5); PopByte(w6); PopByte(w7);
    var b0, b1, b2, b3 := Pop(w % 256), Pop(w1 % 256), Pop(w2 % 256), Pop(w3 % 256);
    var b4, b5, b6, b7 := Pop(w4 % 256), Pop(w5 % 256), Pop(w6 % 256), Pop(w7 % 256);
    var high := b4 + 256 * (b5 + 256 * (b6 + 256 * b7));
    assert Fields256(w4, 4) == high && ByteSum(w4, 4) == b4 + b5 + b6 + b7 by {
      Unroll(w7, 1);
      Unroll(w6, 2);
      Unroll(w5, 3);
      Unroll(w4, 4);
    }
    assert Fields256(w, 8) == b0 + 256 * (b1 + 256 * (b2 + 256 * (b3 + 256 * high)))
        && ByteSum(w, 8) == b0 + b1 + b2 + b3 + ByteSum(w4, 4) by {
      Unroll(w3, 5);
      Unroll(w2, 6);
      Unroll(w1, 7);
      Unroll(w, 8);
    }
    Gather(Fields256(w, 8), b0, b1, b2, b3, b4, b5, b6, b7);
  }

  lemma Gather(x: nat, b0: nat, b1: nat, b2: nat, b3: nat, b4: nat, b5: nat, b6: nat, b7: nat)
    requires b0 <= 8 && b1 <= 8 && b2 <= 8 && b3 <= 8 && b4 <= 8 && b5 <= 8 && b6 <= 8 && b7 <= 8
    requires x == b0 + 256 * (b1 + 256 * (b2 + 256 * (b3 + 256 * (b4 + 256 * (b5 + 256 * (b6 + 256 * b7))))))
    ensures ((x * 0x0101010101010101) % 0x1_0000_0000_0000_0000) / 0x100_0000_0000_0000
         == b0 + b1 + b2 + b3 + b4 + b5 + b6 + b7
  {
    // The product, cut at bit 56: low sums, the full byte sum, and what leaves the word.
    var s := b0 + b1 + b2 + b3 + b4 + b5 + b6 + b7;
    var low := b0 + 256 * (b0 + b1 + 256 * (b0 + b1 + b2 + 256 * (b0 + b1 + b2 + b3
      + 256 * (b0 + b1 + b2 + b3 + b4 + 256 * (b0 + b1 + b2 + b3 + b4 + b5
      + 256 * (b0 + b1 + b2 + b3 + b4 + b5 + b6))))));
    var out := b1 + b2 + b3 + b4 + b5 + b6 + b7 + 256 * (b2 + b3 + b4 + b5 + b6 + b7
      + 256 * (b3 + b4 + b5 + b6 + b7 + 256 * (b4 + b5 + b6 + b7
      + 256 * (b5 + b6 + b7 + 256 * (b6 + b7 + 256 * b7)))));
    assert low < 0x100_0000_0000_0000;
    var p := x * 0x0101010101010101;
    assert p == out * 0x1_0000_0000_0000_0000 + (s * 0x100_0000_0000_0000 + low);
    var r := s * 0x100_0000_0000_0000 + low;
    assert 0 <= r < 0x1_0000_0000_0000_0000;
    DivModUnique(p, 0x1_0000_0000_0000_0000, out, r);
    DivModUnique(r, 0x100_0000_0000_0000, s, low);
  }

  /** hweight64 of bitmap.h for a 64-bit unsigned long. */
  method HWeight64(w0: nat) returns (r: nat)
    requires w0 < 0x1_0000_0000_0000_0000
    ensures r == Pop(w0)
    ensures r == |Ones(w0, 64)|
  {
    hide *;
    Pow2Values();
    Patterns(32);
    Patterns(16);
    Patterns(8);
    Stage1(w0, 32);
    Stage2(w0, 16);
    Stage3(w0, 8);
    GatherBytes(w0);
    SumOfBytes(w0, 8);
    PopIsCardinality(w0, 64);

    var w := w0 - And(w0 / 2, 0x5555555555555555);
    w := And(w, 0x3333333333333333) + And(w / 4, 0x3333333333333333);
    w := And(w + w / 16, 0x0f0f0f0f0f0f0f0f);
    r := ((w * 0x0101010101010101) % 0x1_0000_0000_0000_0000) / 0x100_0000_0000_0000;
  }

  /** The two folding steps of hweight32 gather four byte counts in the low byte. */
  lemma Fold(x: nat, b0: nat, b1: nat, b2: nat, b3: nat)
    requires b0 <= 8 && b1 <= 8 && b2 <= 8 && b3 <= 8
    requires x == b0 + 256 * (b1 + 256 * (b2 + 256 * b3))
    ensures
      var y := x + x / 256;
      y < 0x1_0000_0000 && y + y / 0x1_0000 < 0x1_0000_0000 && (y + y / 0x1_0000) % 256 == b0 + b1 + b2 + b3
  {
    hide *;
    DivModUnique(x, 256, b1 + 256 * (b2 + 256 * b3), b0);
    var y := x + x / 256;
    DivModUnique(y, 0x1_0000, b2 + b3 + 256 * b3, b0 + b1 + 256 * (b1 + b2));
    DivModUnique(y + y / 0x1_0000, 256, b1 + b2 + b3 + 256 * (b2 + b3 + 256 * b3), b0 + b1 + b2 + b3);
  }

  /** hweight32 of bitmap.h. */
  method HWeight32(w0: nat) returns (r: nat)
    requires w0 < 0x1_0000_0000
    ensures r == Pop(w0)
    ensures r == |Ones(w0, 32)|
  {
    hide *;
    Pow2Values();
    Patterns(16);
    Patterns(8);
    Patterns(4);
    Stage1(w0, 16);
    Stage2(w0, 8);
    Stage3(w0, 4);
    FourBytes(w0);
    SumOfBytes(w0, 4);
    PopIsCardinality(w0, 32);

    var res := w0 - And(w0 / 2, 0x5555_5555);
    res := And(res, 0x3333_3333) + And(res / 4, 0x3333_3333);
    res := And(res + res / 16, 0x0f0f_0f0f);
    res := res + res / 256;
    LowByte(res + res / 0x1_0000);
    r := And(res + res / 0x1_0000, 0xff);
  }

  lemma FourBytes(w: nat)
    ensures
      var x := Fields256(w, 4);
      var y := x + x / 256;
      y + y / 0x1_0000 < 0x1_0000_0000 && (y + y / 0x1_0000) % 256 == ByteSum(w, 4)
  {
    hide *;
    var w1 := w / 256;
    var w2 := w1 / 256;
    var w3 := w2 / 256;
    PopByte(w); PopByte(w1); PopByte(w2); PopByte(w3);
    Unroll(w3, 1);
    Unroll(w2, 2);
    Unroll(w1, 3);
    Unroll(w, 4);
    Fold(Fields256(w, 4), Pop(w % 256), Pop(w1 % 256), Pop(w2 % 256), Pop(w3 % 256));
  }

  lemma LowByte(v: nat)
    ensures And(v, 0xff) == v % 256
  {
    hide *;
    SmallPowers();
    AndOnes(v, 8);
    ShrIsQuotient(v, 8);
  }
}
