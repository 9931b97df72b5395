/** Python's bitwise operators on non-negative integers of unbounded width, and the
    bit-level laws the frame codec, the filters and the signal packing rest on. */
module Bits {

  function Pow2(n: nat): (p: nat)
    ensures p > 0
  {
    if n == 0 then 1 else 2 * Pow2(n - 1)
  }

  /** Bit `i` of `x`, counting from the least significant one. */
  predicate Bit(x: nat, i: nat)
    decreases i
  {
    if i == 0 then x % 2 == 1 else Bit(x / 2, i - 1)
  }

  function And(x: nat, y: nat): nat {
    if x == 0 || y == 0 then 0 else 2 * And(x / 2, y / 2) + (if x % 2 == 1 && y % 2 == 1 then 1 else 0)
  }

  function Or(x: nat, y: nat): nat {
    if x == 0 then y
    else if y == 0 then x
    else 2 * Or(x / 2, y / 2) + (if x % 2 == 1 || y % 2 == 1 then 1 else 0)
  }

  function ShiftLeft(x: nat, k: nat): (r: nat)
    ensures r >= x
  {
    if k == 0 then x else 2 * ShiftLeft(x, k - 1)
  }

  function ShiftRight(x: nat, k: nat): nat {
    if k == 0 then x else ShiftRight(x / 2, k - 1)
  }

  /** Python's `int.bit_count`. */
  function BitCount(x: nat): nat {
    if x == 0 then 0 else x % 2 + BitCount(x / 2)
  }

  lemma {:induction false} Pow2Add(a: nat, b: nat)
    ensures Pow2(a + b) == Pow2(a) * Pow2(b)
    decreases b
  {
    if b > 0 {
      Pow2Add(a, b - 1);
      assert Pow2(a) * (2 * Pow2(b - 1)) == 2 * (Pow2(a) * Pow2(b - 1));
    }
  }

  lemma {:induction false} ShiftLeftPow2(x: nat, k: nat)
    ensures ShiftLeft(x, k) == x * Pow2(k)
    decreases k
  {
    if k > 0 {
      ShiftLeftPow2(x, k - 1);
    }
  }

  /** The powers of two a 32-bit word needs. */
  lemma Pow2Values()
    ensures Pow2(8) == 0x100 && Pow2(11) == 0x800 && Pow2(16) == 0x1_0000
    ensures Pow2(29) == 0x2000_0000 && Pow2(31) == 0x8000_0000 && Pow2(32) == 0x1_0000_0000
  {
    assert Pow2(2) == 4 && Pow2(3) == 8;
    Pow2Add(2, 3);
    Pow2Add(5, 3);
    Pow2Add(8, 3);
    Pow2Add(8, 8);
    Pow2Add(16, 8);
    Pow2Add(24, 5);
    Pow2Add(29, 2);
    Pow2Add(29, 3);
  }

  // ---------------------------------------------------------------- single bits

  lemma {:induction false} ZeroBit(i: nat)
    ensures !Bit(0, i)
    decreases i
  {
    if i > 0 { ZeroBit(i - 1); }
  }

  lemma {:induction false} AndBit(x: nat, y: nat, i: nat)
    ensures Bit(And(x, y), i) <==> Bit(x, i) && Bit(y, i)
    decreases i
  {
    if x == 0 || y == 0 {
      ZeroBit(i);
    } else if i > 0 {
      AndBit(x / 2, y / 2, i - 1);
    }
  }

  lemma {:induction false} OrBit(x: nat, y: nat, i: nat)
    ensures Bit(Or(x, y), i) <==> Bit(x, i) || Bit(y, i)
    decreases i
  {
    if x == 0 || y == 0 {
      ZeroBit(i);
    } else if i > 0 {
      OrBit(x / 2, y / 2, i - 1);
    }
  }

  lemma {:induction false} ShiftLeftBit(x: nat, k: nat, i: nat)
    ensures Bit(ShiftLeft(x, k), i) <==> i >= k && Bit(x, i - k)
    decreases k
  {
    if k > 0 && i > 0 {
      ShiftLeftBit(x, k - 1, i - 1);
    }
  }

  lemma MulAtLeast(a: int, d: nat)
    requires a >= 1
    ensures a * d >= d
  {
  }

  /** Euclidean division has only one quotient and remainder. */
  lemma DivUnique(x: nat, d: nat, q: nat, r: nat)
    requires d > 0 && r < d && x == q * d + r
    ensures x / d == q && x % d == r
  {
    var q', r' := x / d, x % d;
    assert x == q' * d + r';
    if q > q' {
      MulAtLeast(q - q', d);
    } else if q < q' {
      MulAtLeast(q' - q, d);
    }
  }

  /** Dividing by `2d` is halving and then dividing by `d`. */
  lemma DivDiv(x: nat, d: nat)
    requires d > 0
    ensures x / (2 * d) == (x / 2) / d
    ensures x % (2 * d) == 2 * ((x / 2) % d) + x % 2
  {
    var q, r := (x / 2) / d, (x / 2) % d;
    assert x / 2 == q * d + r;
    assert q * (2 * d) == 2 * (q * d);
    DivUnique(x, 2 * d, q, 2 * r + x % 2);
  }

  /** Bit `i` is the binary digit of weight `2^i`. */
  lemma {:induction false} BitIsDigit(x: nat, i: nat)
    ensures Bit(x, i) <==> x / Pow2(i) % 2 == 1
    decreases i
  {
    if i > 0 {
      BitIsDigit(x / 2, i - 1);
      DivDiv(x, Pow2(i - 1));
    }
  }

  /** The bits of a number with `k` more below it. */
  lemma {:induction false} BitAppend(low: nat, high: nat, k: nat, i: nat)
    requires low < Pow2(k)
    ensures Bit(low + Pow2(k) * high, i) <==> if i < k then Bit(low, i) else Bit(high, i - k)
    decreases k
  {
    if k > 0 {
      var p := Pow2(k - 1);
      assert Pow2(k) * high == 2 * (p * high);
      if i > 0 {
        assert (low + 2 * (p * high)) / 2 == low / 2 + p * high;
        BitAppend(low / 2, high, k - 1, i - 1);
      }
    }
  }

  /** Shifting right is dividing. */
  lemma {:induction false} ShiftRightDiv(x: nat, k: nat)
    ensures ShiftRight(x, k) == x / Pow2(k)
    decreases k
  {
    if k > 0 {
      ShiftRightDiv(x / 2, k - 1);
      DivDiv(x, Pow2(k - 1));
    }
  }

  lemma {:induction false} ShiftRightTwice(x: nat, a: nat, b: nat)
    ensures ShiftRight(x, a + b) == ShiftRight(ShiftRight(x, a), b)
    decreases a
  {
    if a > 0 { ShiftRightTwice(x / 2, a - 1, b); }
  }

  lemma {:induction false} ShiftRightBit(x: nat, k: nat, i: nat)
    ensures Bit(ShiftRight(x, k), i) <==> Bit(x, i + k)
    decreases k
  {
    if k > 0 {
      ShiftRightBit(x / 2, k - 1, i);
    }
  }

  // ---------------------------------------------------------------- whole numbers

  /** A number is determined by its bits. */
  lemma {:induction false} SameBits(x: nat, y: nat)
    requires forall i: nat :: Bit(x, i) <==> Bit(y, i)
    ensures x == y
    decreases x + y
  {
    assert Bit(x, 0) <==> Bit(y, 0);
    if x + y > 0 {
      forall i: nat
        ensures Bit(x / 2, i) <==> Bit(y / 2, i)
      {
        assert Bit(x, i + 1) <==> Bit(y, i + 1);
      }
      SameBits(x / 2, y / 2);
    }
  }

  lemma {:induction false} HighBitsClear(x: nat, n: nat, i: nat)
    requires x < Pow2(n) && i >= n
    ensures !Bit(x, i)
    decreases i
  {
    if n == 0 {
      ZeroBit(i);
    } else {
      HighBitsClear(x / 2, n - 1, i - 1);
    }
  }

  lemma {:induction false} BoundFromBits(x: nat, n: nat)
    requires forall i: nat :: i >= n ==> !Bit(x, i)
    ensures x < Pow2(n)
    decreases x + n
  {
    if x > 0 {
      forall i: nat | i >= n - 1
        ensures !Bit(x / 2, i)
      {
        assert !Bit(x, i + 1);
      }
      if n == 0 {
        assert !Bit(x, 0);
        BoundFromBits(x / 2, 0);
      } else {
        BoundFromBits(x / 2, n - 1);
      }
    }
  }

  lemma {:induction false} OnesBit(n: nat, i: nat)
    ensures Bit(Pow2(n) - 1, i) <==> i < n
    decreases n
  {
    if n == 0 {
      ZeroBit(i);
    } else {
      assert Pow2(n) - 1 == 2 * (Pow2(n - 1) - 1) + 1;
      if i > 0 {
        assert (Pow2(n) - 1) / 2 == Pow2(n - 1) - 1;
        OnesBit(n - 1, i - 1);
      }
    }
  }

  /** Masking with `2^n - 1` is reduction modulo `2^n`. */
  lemma {:induction false} AndOnes(x: nat, n: nat)
    ensures And(x, Pow2(n) - 1) == x % Pow2(n)
    decreases n
  {
    if x == 0 {
      DivUnique(0, Pow2(n), 0, 0);
    } else if n > 0 {
      var p := Pow2(n - 1);
      AndOnes(x / 2, n - 1);
      DivDiv(x, p);
      AndOdd(x, p);
    }
  }

  lemma KeptByOnes(x: nat, n: nat)
    requires x < Pow2(n)
    ensures And(x, Pow2(n) - 1) == x
  {
    AndOnes(x, n);
    DivUnique(x, Pow2(n), 0, x);
  }

  lemma AndOdd(x: nat, p: nat)
    requires p > 0
    ensures And(x, 2 * p - 1) == 2 * And(x / 2, p - 1) + x % 2
  {
    assert (2 * p - 1) / 2 == p - 1 && (2 * p - 1) % 2 == 1;
  }

  /** Setting the bit above a number, or one it has at its top. */
  lemma {:induction false} OrTop(x: nat, n: nat)
    requires x < Pow2(n + 1)
    ensures Or(x, Pow2(n)) == if x < Pow2(n) then x + Pow2(n) else x
    decreases n
  {
    if n > 0 {
      OrTop(x / 2, n - 1);
      assert Pow2(n) / 2 == Pow2(n - 1) && Pow2(n) % 2 == 0;
    }
  }

  ghost predicate NoSharedBit(x: nat, y: nat) {
    forall i: nat :: !(Bit(x, i) && Bit(y, i))
  }

  /** `x & y == 0` says exactly that no bit position is set in both. */
  lemma DisjointBits(x: nat, y: nat)
    ensures And(x, y) == 0 <==> NoSharedBit(x, y)
  {
    if And(x, y) == 0 {
      forall i: nat
        ensures !(Bit(x, i) && Bit(y, i))
      {
        AndBit(x, y, i);
        ZeroBit(i);
      }
    } else if NoSharedBit(x, y) {
      forall i: nat
        ensures Bit(And(x, y), i) <==> Bit(0, i)
      {
        AndBit(x, y, i);
        ZeroBit(i);
      }
      SameBits(And(x, y), 0);
    }
  }

  lemma {:induction false} BitCountOnes(n: nat)
    ensures BitCount(Pow2(n) - 1) == n
  {
    if n > 0 {
      assert (Pow2(n) - 1) / 2 == Pow2(n - 1) - 1;
      BitCountOnes(n - 1);
    }
  }

  lemma {:induction false} BitCountShift(x: nat, k: nat)
    ensures BitCount(ShiftLeft(x, k)) == BitCount(x)
    decreases k
  {
    if k > 0 {
      BitCountShift(x, k - 1);
    }
  }
}
