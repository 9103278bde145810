/** 256-bit words and their bit-level operations, as the EVM defines them
    (appendix H of the Ethereum Yellow Paper). Words are natural numbers below
    2^256; every wrap-around is written out. */
module Words {

  const MODULUS: int := 0x1_0000_0000_0000_0000_0000_0000_0000_0000_0000_0000_0000_0000_0000_0000_0000_0000
  const MAX_WORD: int := MODULUS - 1
  const HALF: int := 0x8000_0000_0000_0000_0000_0000_0000_0000_0000_0000_0000_0000_0000_0000_0000_0000

  type Word = x: int | 0 <= x < MODULUS

  function Pow2(n: nat): (r: nat)
    ensures r > 0
  {
    if n == 0 then 1 else 2 * Pow2(n - 1)
  }

  lemma {:induction false} Pow2Sum(m: nat, n: nat)
    ensures Pow2(m + n) == Pow2(m) * Pow2(n)
  {
    if n == 0 {
      assert Pow2(m) * 1 == Pow2(m);
    } else {
      Pow2Sum(m, n - 1);
      assert Pow2(m + n) == 2 * Pow2(m + (n - 1));
      assert Pow2(m) * (2 * Pow2(n - 1)) == 2 * (Pow2(m) * Pow2(n - 1));
    }
  }

  lemma {:induction false} Pow2Square(n: nat, v: int)
    requires Pow2(n) == v
    ensures Pow2(n + n) == v * v
  {
    Pow2Sum(n, n);
  }

  lemma {:induction false} Pow2At256()
    ensures Pow2(256) == MODULUS
  {
    assert Pow2(4) == 16;
    Pow2Square(4, 16);
    Pow2Square(8, 0x100);
    Pow2Square(16, 0x1_0000);
    Pow2Square(32, 0x1_0000_0000);
    Pow2Square(64, 0x1_0000_0000_0000_0000);
    Pow2Square(128, 0x1_0000_0000_0000_0000_0000_0000_0000_0000);
  }

  lemma {:induction false} Pow2Monotone(m: nat, n: nat)
    requires m <= n
    ensures Pow2(m) <= Pow2(n)
  {
    if m < n { Pow2Monotone(m, n - 1); }
  }

  // ----- bits -----

  ghost predicate Bit(x: nat, i: nat)
    decreases i
  {
    if i == 0 then x % 2 == 1 else Bit(x / 2, i - 1)
  }

  lemma {:induction false} BitsOfZero(i: nat)
    ensures !Bit(0, i)
    decreases i
  {
    if i > 0 { BitsOfZero(i - 1); }
  }

  /** Two numbers with the same bits are equal. */
  lemma {:induction false} SameBits(x: nat, y: nat)
    requires forall i: nat :: Bit(x, i) == Bit(y, i)
    ensures x == y
    decreases x
  {
    assert Bit(x, 0) == Bit(y, 0);
    if x == 0 {
      if y > 0 { var i := SomeBit(y); BitsOfZero(i); }
    } else {
      forall i: nat ensures Bit(x / 2, i) == Bit(y / 2, i) {
        assert Bit(x, i + 1) == Bit(y, i + 1);
      }
      SameBits(x / 2, y / 2);
    }
  }

  lemma {:induction false} SomeBit(x: nat) returns (i: nat)
    requires x > 0
    ensures Bit(x, i)
    decreases x
  {
    if x % 2 == 1 { i := 0; } else { i := SomeBit(x / 2); i := i + 1; }
  }

  lemma {:induction false} BitOfHalf(x: nat, i: nat)
    ensures Bit(x / 2, i) == Bit(x, i + 1)
  {
  }

  lemma {:induction false} NoHighBit(x: nat, n: nat, i: nat)
    requires x < Pow2(n) && i >= n
    ensures !Bit(x, i)
    decreases n
  {
    if n == 0 {
      BitsOfZero(i);
    } else {
      NoHighBit(x / 2, n - 1, i - 1);
    }
  }

  lemma {:induction false} SomeHighBit(x: nat, n: nat) returns (i: nat)
    requires x >= Pow2(n)
    ensures i >= n && Bit(x, i)
    decreases n
  {
    if n == 0 {
      i := SomeBit(x);
    } else {
      i := SomeHighBit(x / 2, n - 1);
      i := i + 1;
    }
  }

  lemma {:induction false} BelowByBits(x: nat, n: nat)
    requires forall i: nat :: i >= n ==> !Bit(x, i)
    ensures x < Pow2(n)
  {
    if x >= Pow2(n) { var i := SomeHighBit(x, n); }
  }

  lemma {:induction false} HighBit(x: Word, i: nat)
    requires i >= 256
    ensures !Bit(x, i)
  {
    Pow2At256();
    NoHighBit(x, 256, i);
  }

  /** Extensionality for words: the 256 bits decide. */
  lemma {:induction false} WordsByBits(x: Word, y: Word)
    requires forall i: nat :: i < 256 ==> Bit(x, i) == Bit(y, i)
    ensures x == y
  {
    forall i: nat ensures Bit(x, i) == Bit(y, i) {
      if i >= 256 { HighBit(x, i); HighBit(y, i); }
    }
    SameBits(x, y);
  }

  // ----- bitwise operations -----

  function AndNat(x: nat, y: nat): (r: nat)
    ensures r <= x && r <= y
    decreases x
  {
    if x == 0 || y == 0 then 0
    else 2 * AndNat(x / 2, y / 2) + (if x % 2 == 1 && y % 2 == 1 then 1 else 0)
  }

  function OrNat(x: nat, y: nat): (r: nat)
    decreases x
  {
    if x == 0 then y
    else 2 * OrNat(x / 2, y / 2) + (if x % 2 == 1 || y % 2 == 1 then 1 else 0)
  }

  function XorNat(x: nat, y: nat): (r: nat)
    decreases x
  {
    if x == 0 then y
    else 2 * XorNat(x / 2, y / 2) + (if x % 2 != y % 2 then 1 else 0)
  }

  lemma {:induction false} BitAnd(x: nat, y: nat, i: nat)
    ensures Bit(AndNat(x, y), i) == (Bit(x, i) && Bit(y, i))
    decreases i
  {
    if x == 0 || y == 0 { BitsOfZero(i); }
    else if i > 0 { BitAnd(x / 2, y / 2, i - 1); }
  }

  lemma {:induction false} BitOr(x: nat, y: nat, i: nat)
    ensures Bit(OrNat(x, y), i) == (Bit(x, i) || Bit(y, i))
    decreases i
  {
    if x == 0 { BitsOfZero(i); }
    else if i > 0 { BitOr(x / 2, y / 2, i - 1); }
  }

  lemma {:induction false} BitXor(x: nat, y: nat, i: nat)
    ensures Bit(XorNat(x, y), i) == (Bit(x, i) != Bit(y, i))
    decreases i
  {
    if x == 0 { BitsOfZero(i); }
    else if i > 0 { BitXor(x / 2, y / 2, i - 1); }
  }

  /** Complement in n bits. */
  lemma {:induction false} BitComplement(x: nat, n: nat, i: nat)
    requires x < Pow2(n)
    ensures Bit(Pow2(n) - 1 - x, i) == (i < n && !Bit(x, i))
    decreases n
  {
    if n == 0 {
      BitsOfZero(i);
    } else {
      var c := Pow2(n) - 1 - x;
      assert c / 2 == Pow2(n - 1) - 1 - x / 2;
      assert c % 2 == 1 - x % 2;
      if i > 0 { BitComplement(x / 2, n - 1, i - 1); }
    }
  }

  /** x * 2^s, x / 2^s and x mod 2^n on unbounded numbers, one bit at a time. */
  function ShiftUp(x: nat, s: nat): nat { if s == 0 then x else 2 * ShiftUp(x, s - 1) }

  function ShiftDown(x: nat, s: nat): (r: nat)
    ensures r <= x
  {
    if s == 0 then x else ShiftDown(x / 2, s - 1)
  }

  function LowBits(x: nat, n: nat): (r: nat)
    ensures r < Pow2(n) && r <= x
  {
    if n == 0 then 0 else x % 2 + 2 * LowBits(x / 2, n - 1)
  }

  lemma {:induction false} ShiftUpIsProduct(x: nat, s: nat)
    ensures ShiftUp(x, s) == x * Pow2(s)
  {
    if s > 0 {
      ShiftUpIsProduct(x, s - 1);
      assert x * Pow2(s) == 2 * (x * Pow2(s - 1));
    }
  }

  lemma {:induction false} ShiftDownIsQuotient(x: nat, n: nat)
    ensures x == Pow2(n) * ShiftDown(x, n) + LowBits(x, n)
    ensures ShiftDown(x, n) == x / Pow2(n) && LowBits(x, n) == x % Pow2(n)
    decreases n
  {
    if n > 0 {
      ShiftDownIsQuotient(x / 2, n - 1);
      assert Pow2(n) * ShiftDown(x, n) == 2 * (Pow2(n - 1) * ShiftDown(x / 2, n - 1));
    }
    QuotientIs(x, Pow2(n), ShiftDown(x, n), LowBits(x, n));
  }

  lemma {:induction false} QuotientIs(x: int, d: int, q: int, r: int)
    requires d > 0 && 0 <= r < d && x == d * q + r
    ensures x / d == q && x % d == r
  {
    var q', r' := x / d, x % d;
    assert d * (q' - q) == r - r';
    assert q' - q >= 1 ==> d * (q' - q) >= d;
    assert q' - q <= -1 ==> d * (q' - q) <= -d;
  }

  lemma {:induction false} DivBounds(x: int, d: int)
    requires d > 0 && x >= 0
    ensures 0 <= x / d <= x
  {
    var q := x / d;
    assert x == d * q + x % d;
    assert q < 0 ==> d * q <= -d;
    assert q > x ==> d * q >= q;
  }

  function DivNat(x: nat, d: nat): (q: nat)
    requires d > 0
    ensures q <= x
  {
    DivBounds(x, d);
    x / d
  }

  lemma {:induction false} BitShiftUp(x: nat, s: nat, i: nat)
    ensures Bit(ShiftUp(x, s), i) == (i >= s && Bit(x, i - s))
    decreases s
  {
    if s > 0 && i > 0 { BitShiftUp(x, s - 1, i - 1); }
  }

  lemma {:induction false} BitShiftDown(x: nat, s: nat, i: nat)
    ensures Bit(ShiftDown(x, s), i) == Bit(x, i + s)
    decreases s
  {
    if s > 0 {
      BitShiftDown(x / 2, s - 1, i);
      BitOfHalf(x, i + (s - 1));
    }
  }

  lemma {:induction false} BitLowBits(x: nat, n: nat, i: nat)
    ensures Bit(LowBits(x, n), i) == (i < n && Bit(x, i))
    decreases n
  {
    if n == 0 {
      BitsOfZero(i);
    } else {
      var y := LowBits(x, n);
      assert y / 2 == LowBits(x / 2, n - 1) && y % 2 == x % 2;
      if i > 0 { BitLowBits(x / 2, n - 1, i - 1); }
    }
  }

  lemma {:induction false} BitOfPow2Minus1(n: nat, i: nat)
    ensures Bit(Pow2(n) - 1, i) == (i < n)
  {
    BitComplement(0, n, i);
    BitsOfZero(i);
  }
}
