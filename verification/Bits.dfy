/** Binary arithmetic on natural numbers: the meaning of C's unsigned operators. */
module Bits {

  function Pow2(n: nat): (p: nat)
    ensures p >= 1
  {
    if n == 0 then 1 else 2 * Pow2(n - 1)
  }

  /** Bit `i` of `v`. */
  predicate Bit(v: nat, i: nat)
    decreases i
  {
    if i == 0 then v % 2 == 1 else Bit(v / 2, i - 1)
  }

  /** Shift left without a width limit. */
  function Shl(v: nat, s: nat): nat {
    if s == 0 then v else 2 * Shl(v, s - 1)
  }

  function Shr(v: nat, s: nat): nat
    decreases s
  {
    if s == 0 then v else Shr(v / 2, s - 1)
  }

  /** The low `n` bits of `v`. */
  function Low(v: nat, n: nat): nat
    decreases n
  {
    if n == 0 then 0 else v % 2 + 2 * Low(v / 2, n - 1)
  }

  function And(a: nat, b: nat): nat
    decreases a
  {
    if a == 0 || b == 0 then 0
    else (if a % 2 == 1 && b % 2 == 1 then 1 else 0) + 2 * And(a / 2, b / 2)
  }

  function Or(a: nat, b: nat): nat
    decreases a + b
  {
    if a == 0 && b == 0 then 0
    else (if a % 2 == 1 || b % 2 == 1 then 1 else 0) + 2 * Or(a / 2, b / 2)
  }

  function Xor(a: nat, b: nat): nat
    decreases a + b
  {
    if a == 0 && b == 0 then 0
    else (if a % 2 != b % 2 then 1 else 0) + 2 * Xor(a / 2, b / 2)
  }

  // ---- the recursive forms are multiplication, division and remainder

  lemma {:induction false} Pow2Add(a: nat, b: nat)
    ensures Pow2(a + b) == Pow2(a) * Pow2(b)
  {
    if a > 0 {
      Pow2Add(a - 1, b);
      assert 2 * (Pow2(a - 1) * Pow2(b)) == (2 * Pow2(a - 1)) * Pow2(b);
    }
  }

  lemma {:induction false} Pow2Mono(a: nat, b: nat)
    requires a <= b
    ensures Pow2(a) <= Pow2(b)
  {
    if a < b { Pow2Mono(a, b - 1); }
  }

  lemma SmallPowers()
    ensures Pow2(1) == 2 && Pow2(2) == 4 && Pow2(4) == 16 && Pow2(8) == 256
  {
  }

  lemma Pow2Values()
    ensures Pow2(16) == 0x1_0000
    ensures Pow2(28) == 0x1000_0000
    ensures Pow2(32) == 0x1_0000_0000
    ensures Pow2(64) == 0x1_0000_0000_0000_0000
  {
    assert Pow2(8) == 256;
    Pow2Add(8, 8);
    Pow2Add(16, 8);
    assert Pow2(4) == 16;
    Pow2Add(24, 4);
    Pow2Add(16, 16);
    Pow2Add(32, 32);
  }

  lemma {:induction false} ShlIsProduct(v: nat, s: nat)
    ensures Shl(v, s) == v * Pow2(s)
  {
    if s > 0 {
      ShlIsProduct(v, s - 1);
      assert v * (2 * Pow2(s - 1)) == 2 * (v * Pow2(s - 1));
    }
  }

  lemma Scale(x: int, y: int, d: int)
    requires x <= y && d >= 0
    ensures x * d <= y * d
  {
  }

  lemma DivModUnique(v: int, d: int, q: int, r: int)
    requires 0 <= r < d && v == q * d + r
    ensures v / d == q && v % d == r
  {
    var q', r' := v / d, v % d;
    assert v == q' * d + r';
    assert (q' + 1) * d == q' * d + d;
    assert (q + 1) * d == q * d + d;
    if q > q' {
      Scale(q' + 1, q, d);
    } else if q < q' {
      Scale(q + 1, q', d);
    }
  }

  /** Splitting at bit n: v is Shr(v, n) * 2^n + Low(v, n), with Low(v, n) below 2^n. */
  lemma {:induction false} Split(v: nat, n: nat)
    ensures Low(v, n) < Pow2(n)
    ensures v == Shl(Shr(v, n), n) + Low(v, n)
    decreases n
  {
    if n > 0 {
      Split(v / 2, n - 1);
    }
  }

  lemma ShrIsQuotient(v: nat, n: nat)
    ensures Shr(v, n) == v / Pow2(n) && Low(v, n) == v % Pow2(n)
  {
    Split(v, n);
    ShlIsProduct(Shr(v, n), n);
    DivModUnique(v, Pow2(n), Shr(v, n), Low(v, n));
  }

  lemma {:induction false} LowSmall(v: nat, n: nat)
    requires v < Pow2(n)
    ensures Low(v, n) == v
    decreases n
  {
    if n > 0 { LowSmall(v / 2, n - 1); }
  }

  lemma {:induction false} ShrBound(v: nat, a: nat, b: nat)
    requires v < Pow2(a + b)
    ensures Shr(v, a) < Pow2(b)
    decreases a
  {
    if a > 0 { ShrBound(v / 2, a - 1, b); }
  }

  lemma {:induction false} ShlBound(v: nat, s: nat, n: nat)
    requires v < Pow2(n)
    ensures Shl(v, s) + Pow2(s) <= Pow2(n + s)
  {
    if s > 0 { ShlBound(v, s - 1, n); }
  }

  lemma {:induction false} ShlAdd(a: nat, b: nat, s: nat)
    ensures Shl(a + b, s) == Shl(a, s) + Shl(b, s)
  {
    if s > 0 { ShlAdd(a, b, s - 1); }
  }

  lemma {:induction false} ShlShl(v: nat, s: nat, t: nat)
    ensures Shl(Shl(v, s), t) == Shl(v, s + t)
  {
    if t > 0 { ShlShl(v, s, t - 1); }
  }

  // ---- bits of compound values

  lemma {:induction false} BitZero(i: nat)
    ensures !Bit(0, i)
  {
    if i > 0 { BitZero(i - 1); }
  }

  lemma {:induction false} BitShl(v: nat, s: nat, i: nat)
    ensures Bit(Shl(v, s), i) == (i >= s && Bit(v, i - s))
  {
    if s > 0 && i > 0 { BitShl(v, s - 1, i - 1); }
  }

  lemma {:induction false} BitShr(v: nat, s: nat, i: nat)
    ensures Bit(Shr(v, s), i) == Bit(v, i + s)
    decreases s
  {
    if s > 0 { BitShr(v / 2, s - 1, i); }
  }

  lemma {:induction false} BitLow(v: nat, n: nat, i: nat)
    ensures Bit(Low(v, n), i) == (i < n && Bit(v, i))
    decreases n
  {
    if n == 0 {
      BitZero(i);
    } else if i > 0 {
      BitLow(v / 2, n - 1, i - 1);
    }
  }

  /** Numbers below 2^n have no bit at n or above. */
  lemma BitHigh(v: nat, n: nat, i: nat)
    requires v < Pow2(n) && i >= n
    ensures !Bit(v, i)
  {
    LowSmall(v, n);
    BitLow(v, n, i);
  }

  lemma {:induction false} BitAppend(lo: nat, hi: nat, n: nat, i: nat)
    requires lo < Pow2(n)
    ensures Bit(lo + Shl(hi, n), i) == if i < n then Bit(lo, i) else Bit(hi, i - n)
    decreases n
  {
    if n > 0 && i > 0 {
      assert (lo + Shl(hi, n)) / 2 == lo / 2 + Shl(hi, n - 1);
      BitAppend(lo / 2, hi, n - 1, i - 1);
    }
  }

  lemma {:induction false} BitAnd(a: nat, b: nat, i: nat)
    ensures Bit(And(a, b), i) == (Bit(a, i) && Bit(b, i))
    decreases i
  {
    if a == 0 || b == 0 {
      BitZero(i);
    } else if i > 0 {
      BitAnd(a / 2, b / 2, i - 1);
    }
  }

  lemma {:induction false} BitOr(a: nat, b: nat, i: nat)
    ensures Bit(Or(a, b), i) == (Bit(a, i) || Bit(b, i))
    decreases i
  {
    if a == 0 && b == 0 {
      BitZero(i);
    } else if i > 0 {
      BitOr(a / 2, b / 2, i - 1);
    }
  }

  lemma {:induction false} BitXor(a: nat, b: nat, i: nat)
    ensures Bit(Xor(a, b), i) == (Bit(a, i) != Bit(b, i))
    decreases i
  {
    if a == 0 && b == 0 {
      BitZero(i);
    } else if i > 0 {
      BitXor(a / 2, b / 2, i - 1);
    }
  }

  lemma NotHalf(v: nat, p: nat)
    requires v < 2 * p
    ensures (2 * p - 1 - v) / 2 == p - 1 - v / 2
    ensures (2 * p - 1 - v) % 2 == 1 - v % 2
  {
  }

  lemma {:induction false} BitNot(v: nat, n: nat, i: nat)
    requires v < Pow2(n)
    ensures Bit(Pow2(n) - 1 - v, i) == (i < n && !Bit(v, i))
  {
    if n == 0 {
      BitZero(i);
    } else {
      NotHalf(v, Pow2(n - 1));
      if i > 0 { BitNot(v / 2, n - 1, i - 1); }
    }
  }

  /** A number is determined by its bits. */
  lemma {:induction false} BitsDetermine(a: nat, b: nat, n: nat)
    requires a < Pow2(n) && b < Pow2(n)
    requires forall i :: 0 <= i < n ==> Bit(a, i) == Bit(b, i)
    ensures a == b
  {
    if n > 0 {
      assert Bit(a, 0) == Bit(b, 0);
      forall i | 0 <= i < n - 1
        ensures Bit(a / 2, i) == Bit(b / 2, i)
      {
        assert Bit(a, i + 1) == Bit(b, i + 1);
      }
      BitsDetermine(a / 2, b / 2, n - 1);
    }
  }

  /** A number other than zero has a bit set. */
  lemma {:induction false} NonzeroBit(a: nat, n: nat) returns (i: nat)
    requires 0 < a < Pow2(n)
    ensures i < n && Bit(a, i)
    decreases n
  {
    if a % 2 == 1 {
      i := 0;
    } else {
      i := NonzeroBit(a / 2, n - 1);
      i := i + 1;
    }
  }

  // ---- masks

  lemma AndZero(v: nat)
    ensures And(v, 0) == 0 && And(0, v) == 0
  {
  }

  /** One binary digit of And, also where an operand is zero. */
  lemma AndStep(a: nat, b: nat)
    ensures And(a, b) == (if a % 2 == 1 && b % 2 == 1 then 1 else 0) + 2 * And(a / 2, b / 2)
  {
    AndZero(a / 2);
    AndZero(b / 2);
  }

  lemma {:induction false} AndBound(a: nat, b: nat, n: nat)
    requires a < Pow2(n)
    ensures And(a, b) < Pow2(n) && And(b, a) < Pow2(n)
    decreases n
  {
    if n > 0 {
      AndBound(a / 2, b / 2, n - 1);
    }
  }

  lemma {:induction false} OrBound(a: nat, b: nat, n: nat)
    requires a < Pow2(n) && b < Pow2(n)
    ensures Or(a, b) < Pow2(n)
    decreases n
  {
    if n > 0 {
      OrBound(a / 2, b / 2, n - 1);
    }
  }

  lemma {:induction false} XorBound(a: nat, b: nat, n: nat)
    requires a < Pow2(n) && b < Pow2(n)
    ensures Xor(a, b) < Pow2(n)
    decreases n
  {
    if n > 0 {
      XorBound(a / 2, b / 2, n - 1);
    }
  }

  /** Masking with 2^n - 1 keeps the low n bits. */
  lemma {:induction false} AndOnes(v: nat, n: nat)
    ensures And(v, Pow2(n) - 1) == Low(v, n)
    decreases n
  {
    if n > 0 {
      NotHalf(0, Pow2(n - 1));
      AndOnes(v / 2, n - 1);
      AndStep(v, Pow2(n) - 1);
    } else {
      AndZero(v);
    }
  }

  lemma {:induction false} AndHigh(v: nat, y: nat, k: nat)
    ensures And(v, Shl(y, k)) == Shl(And(Shr(v, k), y), k)
    decreases k
  {
    if k > 0 {
      AndHigh(v / 2, y, k - 1);
      AndStep(v, Shl(y, k));
    }
  }

  /** Or of numbers without common bits is their sum. */
  lemma {:induction false} OrAppend(lo: nat, hi: nat, n: nat)
    requires lo < Pow2(n)
    ensures Or(lo, Shl(hi, n)) == lo + Shl(hi, n) == Or(Shl(hi, n), lo)
    decreases n
  {
    if n == 0 {
      OrZero(hi);
    } else {
      OrAppend(lo / 2, hi, n - 1);
    }
  }

  lemma {:induction false} OrZero(v: nat)
    ensures Or(0, v) == v == Or(v, 0)
  {
    if v > 0 { OrZero(v / 2); }
  }
}
