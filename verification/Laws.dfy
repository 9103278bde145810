/** Laws of word arithmetic behind the simplification rules. */
module Laws {
  import opened Words
  import opened Instructions
  import opened Arithmetic

  // ----- logic -----

  lemma {:induction false} AndOnes(x: Word)
    ensures And(x, MAX_WORD) == x && And(MAX_WORD, x) == x
  {
    CommutativeOps(AND, x, MAX_WORD);
    forall i: nat | i < 256 ensures Bit(And(x, MAX_WORD), i) == Bit(x, i) { BitAnd(x, MAX_WORD, i); BitOfMax(i); }
    WordsByBits(And(x, MAX_WORD), x);
  }

  lemma {:induction false} OrZeroOnes(x: Word)
    ensures Or(x, 0) == x && Or(0, x) == x
    ensures Or(x, MAX_WORD) == MAX_WORD && Or(MAX_WORD, x) == MAX_WORD
  {
    CommutativeOps(OR, x, 0);
    CommutativeOps(OR, x, MAX_WORD);
    forall i: nat | i < 256 ensures Bit(Or(x, MAX_WORD), i) == Bit(MAX_WORD, i) { BitOr(x, MAX_WORD, i); BitOfMax(i); }
    WordsByBits(Or(x, MAX_WORD), MAX_WORD);
  }

  lemma {:induction false} XorZero(x: Word)
    ensures Xor(x, 0) == x && Xor(0, x) == x
  {
    CommutativeOps(XOR, x, 0);
  }

  lemma {:induction false} Idempotent(x: Word)
    ensures And(x, x) == x && Or(x, x) == x && Xor(x, x) == 0
  {
    forall i: nat | i < 256 ensures Bit(And(x, x), i) == Bit(x, i) { BitAnd(x, x, i); }
    WordsByBits(And(x, x), x);
    forall i: nat | i < 256 ensures Bit(Or(x, x), i) == Bit(x, i) { BitOr(x, x, i); }
    WordsByBits(Or(x, x), x);
    forall i: nat | i < 256 ensures Bit(Xor(x, x), i) == Bit(0, i) { BitXor(x, x, i); BitsOfZero(i); }
    WordsByBits(Xor(x, x), 0);
  }

  lemma {:induction false} XorTwice(x: Word, y: Word)
    ensures Xor(x, Xor(x, y)) == y && Xor(x, Xor(y, x)) == y && Xor(Xor(x, y), x) == y && Xor(Xor(y, x), x) == y
  {
    CommutativeOps(XOR, x, y);
    CommutativeOps(XOR, x, Xor(x, y));
    forall i: nat | i < 256 ensures Bit(Xor(x, Xor(x, y)), i) == Bit(y, i) { BitXor(x, Xor(x, y), i); BitXor(x, y, i); }
    WordsByBits(Xor(x, Xor(x, y)), y);
  }

  lemma {:induction false} OrAbsorbs(x: Word, y: Word)
    ensures Or(x, And(x, y)) == x && Or(x, And(y, x)) == x && Or(And(x, y), x) == x && Or(And(y, x), x) == x
  {
    CommutativeOps(AND, x, y);
    CommutativeOps(OR, x, And(x, y));
    forall i: nat | i < 256 ensures Bit(Or(x, And(x, y)), i) == Bit(x, i) { BitOr(x, And(x, y), i); BitAnd(x, y, i); }
    WordsByBits(Or(x, And(x, y)), x);
  }

  lemma {:induction false} AndAbsorbs(x: Word, y: Word)
    ensures And(x, Or(x, y)) == x && And(x, Or(y, x)) == x && And(Or(x, y), x) == x && And(Or(y, x), x) == x
  {
    CommutativeOps(OR, x, y);
    CommutativeOps(AND, x, Or(x, y));
    forall i: nat | i < 256 ensures Bit(And(x, Or(x, y)), i) == Bit(x, i) { BitAnd(x, Or(x, y), i); BitOr(x, y, i); }
    WordsByBits(And(x, Or(x, y)), x);
  }

  lemma {:induction false} Complements(x: Word)
    ensures And(x, Not(x)) == 0 && And(Not(x), x) == 0 && Or(x, Not(x)) == MAX_WORD && Or(Not(x), x) == MAX_WORD
  {
    CommutativeOps(AND, x, Not(x));
    CommutativeOps(OR, x, Not(x));
    forall i: nat | i < 256
      ensures Bit(And(x, Not(x)), i) == Bit(0, i)
    { BitAnd(x, Not(x), i); BitOfNot(x, i); BitsOfZero(i); }
    WordsByBits(And(x, Not(x)), 0);
    forall i: nat | i < 256
      ensures Bit(Or(x, Not(x)), i) == Bit(MAX_WORD, i)
    { BitOr(x, Not(x), i); BitOfNot(x, i); BitOfMax(i); }
    WordsByBits(Or(x, Not(x)), MAX_WORD);
  }

  lemma {:induction false} XorZeroMeansEqual(x: Word, y: Word)
    ensures Xor(x, y) == 0 <==> x == y
  {
    Idempotent(x);
    if Xor(x, y) == 0 {
      forall i: nat | i < 256 ensures Bit(x, i) == Bit(y, i) { BitXor(x, y, i); BitsOfZero(i); }
      WordsByBits(x, y);
    }
  }

  lemma {:induction false} AndAssociative(x: Word, y: Word, z: Word)
    ensures And(And(x, y), z) == And(x, And(y, z))
  {
    forall i: nat | i < 256 ensures Bit(And(And(x, y), z), i) == Bit(And(x, And(y, z)), i) {
      BitAnd(And(x, y), z, i); BitAnd(x, y, i); BitAnd(x, And(y, z), i); BitAnd(y, z, i);
    }
    WordsByBits(And(And(x, y), z), And(x, And(y, z)));
  }

  lemma {:induction false} OrAssociative(x: Word, y: Word, z: Word)
    ensures Or(Or(x, y), z) == Or(x, Or(y, z))
  {
    forall i: nat | i < 256 ensures Bit(Or(Or(x, y), z), i) == Bit(Or(x, Or(y, z)), i) {
      BitOr(Or(x, y), z, i); BitOr(x, y, i); BitOr(x, Or(y, z), i); BitOr(y, z, i);
    }
    WordsByBits(Or(Or(x, y), z), Or(x, Or(y, z)));
  }

  lemma {:induction false} XorAssociative(x: Word, y: Word, z: Word)
    ensures Xor(Xor(x, y), z) == Xor(x, Xor(y, z))
  {
    forall i: nat | i < 256 ensures Bit(Xor(Xor(x, y), z), i) == Bit(Xor(x, Xor(y, z)), i) {
      BitXor(Xor(x, y), z, i); BitXor(x, y, i); BitXor(x, Xor(y, z), i); BitXor(y, z, i);
    }
    WordsByBits(Xor(Xor(x, y), z), Xor(x, Xor(y, z)));
  }

  /** Masking with 2^n - 1 is the remainder modulo 2^n. */
  lemma {:induction false} MaskIsRemainder(x: nat, n: nat)
    ensures AndNat(x, Pow2(n) - 1) == LowBits(x, n)
  {
    forall i: nat ensures Bit(AndNat(x, Pow2(n) - 1), i) == Bit(LowBits(x, n), i) {
      BitAnd(x, Pow2(n) - 1, i); BitOfPow2Minus1(n, i); BitLowBits(x, n, i);
    }
    SameBits(AndNat(x, Pow2(n) - 1), LowBits(x, n));
  }

  lemma {:induction false} LowBitsOfSmall(x: nat, n: nat)
    requires x < Pow2(n)
    ensures LowBits(x, n) == x
    decreases n
  {
    if n > 0 { LowBitsOfSmall(x / 2, n - 1); }
  }

  /** A mask of n ones leaves every number below 2^n alone. */
  lemma {:induction false} SmallUnderMask(x: nat, n: nat)
    requires x < Pow2(n)
    ensures AndNat(x, Pow2(n) - 1) == x
  {
    MaskIsRemainder(x, n);
    LowBitsOfSmall(x, n);
  }

  // ----- modular arithmetic -----

  lemma {:induction false} WrapLess(x: int)
    requires 0 <= x < MODULUS
    ensures Wrap(x) == x
  {
  }

  lemma {:induction false} WrapShift(x: int, k: int)
    ensures Wrap(x + k * MODULUS) == Wrap(x)
  {
    QuotientIs(x + k * MODULUS, MODULUS, x / MODULUS + k, x % MODULUS);
  }

  lemma {:induction false} WrapSum(x: int, y: int)
    ensures Wrap(Wrap(x) + y) == Wrap(x + y) && Wrap(y + Wrap(x)) == Wrap(x + y) && Wrap(y - Wrap(x)) == Wrap(y - x)
  {
    var q := x / MODULUS;
    assert x == q * MODULUS + Wrap(x);
    WrapShift(Wrap(x) + y, q);
    WrapShift(y - Wrap(x), -q);
  }

  lemma {:induction false} AddAssociative(x: Word, y: Word, z: Word)
    ensures Add(Add(x, y), z) == Add(x, Add(y, z))
  {
    WrapSum(x + y, z);
    WrapSum(y + z, x);
  }

  lemma {:induction false} SubIsAdd(x: Word, a: Word)
    ensures Sub(x, a) == Add(x, Wrap(0 - a))
  {
    WrapSum(0 - a, x);
  }

  lemma {:induction false} SubOfSum(x: Word, y: Word, a: Word)
    ensures Sub(Add(x, a), y) == Add(Sub(x, y), a)
  {
    WrapSum(x + a, 0 - y);
    WrapSum(x - y, a);
  }

  lemma {:induction false} SubAcrossSum(x: Word, y: Word, a: Word)
    ensures Sub(x, Add(y, a)) == Add(Sub(x, y), Wrap(0 - a))
  {
    calc {
      Sub(x, Add(y, a));
      { WrapSum(y + a, x); }
      Wrap((x - y) + (0 - a));
      { WrapSum(x - y, 0 - a); }
      Wrap(Sub(x, y) + (0 - a));
      { WrapSum(0 - a, Sub(x, y)); }
      Add(Sub(x, y), Wrap(0 - a));
    }
  }

  lemma {:induction false} WrapProduct(x: int, y: int)
    ensures Wrap(Wrap(x) * y) == Wrap(x * y) && Wrap(y * Wrap(x)) == Wrap(x * y)
  {
    var q := x / MODULUS;
    assert x == q * MODULUS + Wrap(x);
    assert x * y == Wrap(x) * y + (q * y) * MODULUS by {
      assert (q * MODULUS) * y == (q * y) * MODULUS;
    }
    WrapShift(Wrap(x) * y, q * y);
  }

  lemma {:induction false} MulAssociative(x: Word, y: Word, z: Word)
    ensures Mul(Mul(x, y), z) == Mul(x, Mul(y, z))
  {
    WrapProduct(x * y, z);
    WrapProduct(y * z, x);
    assert (x * y) * z == (y * z) * x;
  }

  lemma {:induction false} MulAllOnes(x: Word)
    ensures Mul(x, MAX_WORD) == Sub(0, x) && Mul(MAX_WORD, x) == Sub(0, x)
  {
    assert x * MAX_WORD == (0 - x) + x * MODULUS;
    WrapShift(0 - x, x);
  }

  // ----- shifts -----

  lemma {:induction false} ShlIsProduct(s: Word, x: Word)
    ensures Mul(x, Shl(s, 1)) == Shl(s, x) && Mul(Shl(s, 1), x) == Shl(s, x)
  {
    if s < 256 {
      ShiftUpIsProduct(1, s);
      ShiftUpIsProduct(x, s);
      WrapProduct(Pow2(s), x);
    }
  }

  lemma {:induction false} Pow2Below(n: nat)
    requires n < 256
    ensures 0 < Pow2(n) < MODULUS
  {
    Pow2At256();
    Pow2Monotone(n + 1, 256);
  }

  lemma {:induction false} ShrIsQuotient(s: Word, x: Word)
    ensures Div(x, Shl(s, 1)) == Shr(s, x)
  {
    if s < 256 {
      Pow2Below(s);
      ShiftUpIsProduct(1, s);
      var d := Pow2(s);
      assert Shl(s, 1) == d by { WrapLess(d); }
      ShiftDownIsQuotient(x, s);
    }
  }

  lemma {:induction false} ShiftByZero(x: Word)
    ensures Shl(0, x) == x && Shr(0, x) == x
  {
    assert ShiftUp(x, 0) == x;
    assert ShiftDown(x, 0) == x;
  }

  lemma {:induction false} ShiftOfZero(s: Word)
    ensures Shl(s, 0) == 0 && Shr(s, 0) == 0
  {
    if s < 256 { ShiftUpIsProduct(0, s); }
  }

  lemma {:induction false} ShlShl(a: Word, b: Word, x: Word)
    ensures Shl(b, Shl(a, x)) == if a + b >= 256 then 0 else Shl(a + b, x)
  {
    var r: Word := if a + b >= 256 then 0 else Shl(a + b, x);
    forall i: nat | i < 256 ensures Bit(Shl(b, Shl(a, x)), i) == Bit(r, i) {
      BitOfShl(b, Shl(a, x), i);
      if i >= b { BitOfShl(a, x, i - b); }
      if a + b < 256 { BitOfShl(a + b, x, i); } else { BitsOfZero(i); }
    }
    WordsByBits(Shl(b, Shl(a, x)), r);
  }

  lemma {:induction false} ShrShr(a: Word, b: Word, x: Word)
    ensures Shr(b, Shr(a, x)) == if a + b >= 256 then 0 else Shr(a + b, x)
  {
    var r: Word := if a + b >= 256 then 0 else Shr(a + b, x);
    forall i: nat | i < 256 ensures Bit(Shr(b, Shr(a, x)), i) == Bit(r, i) {
      BitOfShr(b, Shr(a, x), i);
      BitOfShr(a, x, i + b);
      if a + b < 256 { BitOfShr(a + b, x, i); } else { BitsOfZero(i); HighBit(x, i + b + a); }
    }
    WordsByBits(Shr(b, Shr(a, x)), r);
  }

  /** Right shift of a left shift: one shift by the difference, then a mask. */
  lemma {:induction false} ShrShl(a: Word, b: Word, x: Word)
    requires a < 256 && b < 256
    ensures Shr(b, Shl(a, x)) ==
            And(if a > b then Shl(a - b, x) else Shr(b - a, x), Shr(b, Shl(a, MAX_WORD)))
  {
    var s: Word := if a > b then Shl(a - b, x) else Shr(b - a, x);
    var mask := Shr(b, Shl(a, MAX_WORD));
    forall i: nat | i < 256 ensures Bit(Shr(b, Shl(a, x)), i) == Bit(And(s, mask), i) {
      BitAnd(s, mask, i);
      BitOfShr(b, Shl(a, x), i);
      BitOfShr(b, Shl(a, MAX_WORD), i);
      if a > b { BitOfShl(a - b, x, i); } else { BitOfShr(b - a, x, i); }
      if i + b < 256 {
        BitOfShl(a, x, i + b);
        BitOfShl(a, MAX_WORD, i + b);
        if i + b >= a { BitOfMax(i + b - a); }
      } else {
        HighBit(Shl(a, x), i + b);
        HighBit(Shl(a, MAX_WORD), i + b);
      }
    }
    WordsByBits(Shr(b, Shl(a, x)), And(s, mask));
  }

  /** Left shift of a right shift: one shift by the difference, then a mask. */
  lemma {:induction false} ShlShr(a: Word, b: Word, x: Word)
    requires a < 256 && b < 256
    ensures Shl(b, Shr(a, x)) ==
            And(if a > b then Shr(a - b, x) else Shl(b - a, x), Shl(b, Shr(a, MAX_WORD)))
  {
    var s: Word := if a > b then Shr(a - b, x) else Shl(b - a, x);
    var mask := Shl(b, Shr(a, MAX_WORD));
    forall i: nat | i < 256 ensures Bit(Shl(b, Shr(a, x)), i) == Bit(And(s, mask), i) {
      BitAnd(s, mask, i);
      BitOfShl(b, Shr(a, x), i);
      BitOfShl(b, Shr(a, MAX_WORD), i);
      if a > b { BitOfShr(a - b, x, i); } else { BitOfShl(b - a, x, i); }
      if i >= b {
        BitOfShr(a, x, i - b);
        BitOfShr(a, MAX_WORD, i - b);
        BitOfMax(i - b + a);
        if i - b + a >= 256 { HighBit(x, i - b + a); }
      }
    }
    WordsByBits(Shl(b, Shr(a, x)), And(s, mask));
  }

  lemma {:induction false} ShiftOfAnd(b: Word, x: Word, a: Word)
    ensures Shl(b, And(x, a)) == And(Shl(b, x), Shl(b, a))
    ensures Shr(b, And(x, a)) == And(Shr(b, x), Shr(b, a))
  {
    forall i: nat | i < 256 ensures Bit(Shl(b, And(x, a)), i) == Bit(And(Shl(b, x), Shl(b, a)), i) {
      BitAnd(Shl(b, x), Shl(b, a), i);
      BitOfShl(b, And(x, a), i); BitOfShl(b, x, i); BitOfShl(b, a, i);
      if i >= b { BitAnd(x, a, i - b); }
    }
    WordsByBits(Shl(b, And(x, a)), And(Shl(b, x), Shl(b, a)));
    forall i: nat | i < 256 ensures Bit(Shr(b, And(x, a)), i) == Bit(And(Shr(b, x), Shr(b, a)), i) {
      BitAnd(Shr(b, x), Shr(b, a), i);
      BitOfShr(b, And(x, a), i); BitOfShr(b, x, i); BitOfShr(b, a, i);
      BitAnd(x, a, i + b);
    }
    WordsByBits(Shr(b, And(x, a)), And(Shr(b, x), Shr(b, a)));
  }

  /** A mask that has all the bits a shifted word can have does nothing. */
  lemma {:induction false} MaskAfterShr(a: Word, b: Word, x: Word)
    requires And(a, Shr(b, MAX_WORD)) == Shr(b, MAX_WORD)
    ensures And(a, Shr(b, x)) == Shr(b, x) && And(Shr(b, x), a) == Shr(b, x)
  {
    CommutativeOps(AND, a, Shr(b, x));
    var m := Shr(b, MAX_WORD);
    forall i: nat | i < 256 ensures Bit(And(a, Shr(b, x)), i) == Bit(Shr(b, x), i) {
      BitAnd(a, Shr(b, x), i);
      BitAnd(a, m, i);
      BitOfShr(b, x, i);
      BitOfShr(b, MAX_WORD, i);
      BitOfMax(i + b);
      if i + b >= 256 { HighBit(x, i + b); }
    }
    WordsByBits(And(a, Shr(b, x)), Shr(b, x));
  }

  // ----- bytes and sign extension -----

  lemma {:induction false} LowByte(x: nat)
    ensures AndNat(x, 0xff) == x % 256
  {
    assert Pow2(8) == 256;
    MaskIsRemainder(x, 8);
    ShiftDownIsQuotient(x, 8);
  }

  lemma {:induction false} ByteIsSmall(n: Word, x: Word)
    ensures And(ByteOf(n, x), 0xff) == ByteOf(n, x)
  {
    SmallByte(ByteOf(n, x));
  }

  lemma {:induction false} SmallByte(b: nat)
    requires b < 256
    ensures AndNat(b, 0xff) == b
  {
    LowByte(b);
  }

  lemma {:induction false} LastByte(x: Word)
    ensures ByteOf(31, x) == And(x, 0xff)
  {
    LowByte(x);
    assert ShiftDown(x, 0) == x;
  }

  /** Keeping the low n bits and setting or clearing the rest, through masks. */
  lemma {:induction false} LowThenOnes(x: Word, n: nat)
    requires n < 256
    ensures 0 < Pow2(n) < MODULUS
    ensures And(x, Pow2(n) - 1) == LowBits(x, n)
    ensures Or(x, Not(Pow2(n) - 1)) == LowBits(x, n) + (MODULUS - Pow2(n))
  {
    Pow2Below(n);
    MaskIsRemainder(x, n);
    var mask: Word := Pow2(n) - 1;
    var r := LowBits(x, n) + (MODULUS - Pow2(n));
    assert 0 <= LowBits(x, n) < Pow2(n);
    forall i: nat | i < 256 ensures Bit(Or(x, Not(mask)), i) == Bit(Not(mask - LowBits(x, n)), i) {
      BitOr(x, Not(mask), i);
      BitOfNot(mask, i);
      BitOfPow2Minus1(n, i);
      BitOfNot(mask - LowBits(x, n), i);
      BitComplement(LowBits(x, n), n, i);
      BitLowBits(x, n, i);
    }
    WordsByBits(Or(x, Not(mask)), Not(mask - LowBits(x, n)));
  }

  lemma {:induction false} OddQuotient(x: nat, n: nat)
    ensures LowBits(x, n + 1) == LowBits(x, n) + (if ShiftDown(x, n) % 2 == 1 then Pow2(n) else 0)
    decreases n
  {
    if n > 0 { OddQuotient(x / 2, n - 1); } else { assert LowBits(x, 1) == x % 2; }
  }
}
