/** Every rule that first-match lookup can return preserves the value of the
    expression, for all operands. */
module RulesSound {
  import opened Words
  import opened Instructions
  import opened Arithmetic
  import opened Items
  import opened Laws
  import opened Rules

  // ----- part 1: constant folding -----

  lemma {:induction false} PowModulo(x: Word, n: nat)
    ensures PowInt(x, n) % MODULUS == Exp(x, n)
  {
    if n > 0 {
      PowModulo(x, n - 1);
      WrapProduct(PowInt(x, n - 1), x);
    }
  }

  lemma {:induction false} SignedToWordWraps(x: int)
    requires -MODULUS <= x < MODULUS
    ensures SignedToWord(x) == Wrap(x)
  {
    if x < 0 { WrapShift(x, 1); }
  }

  lemma {:induction false} TruncatedBounds(x: int, y: int)
    requires -MODULUS < x < MODULUS && y != 0
    ensures -MODULUS < TruncatedDiv(x, y) < MODULUS && -MODULUS < TruncatedMod(x, y) < MODULUS
  {
    DivBounds(AbsInt(x), AbsInt(y));
    var q := AbsInt(x) / AbsInt(y);
    assert AbsInt(x) == AbsInt(y) * q + AbsInt(x) % AbsInt(y);
    assert AbsInt(y) * q >= 0;
  }

  lemma {:induction false} SignedOps(a: Word, b: Word)
    requires b != 0
    ensures SignedToWord(TruncatedDiv(Signed(a), Signed(b))) == Sdiv(a, b)
    ensures SignedToWord(TruncatedMod(Signed(a), Signed(b))) == Smod(a, b)
  {
    TruncatedBounds(Signed(a), Signed(b));
    SignedToWordWraps(TruncatedDiv(Signed(a), Signed(b)));
    SignedToWordWraps(TruncatedMod(Signed(a), Signed(b)));
  }

  lemma {:induction false} ShlWorkaroundIsShl(x: Word, s: nat)
    requires s < 256
    ensures ShlWorkaround(x, s) == Shl(s, x)
  {
    Pow2At256();
    MaskIsRemainder(ShiftUp(x, s), 256);
    WrapIsLowBits(ShiftUp(x, s));
  }

  lemma {:induction false} SignExtension(a: Word, b: Word)
    ensures FoldSignExtend(a, b) == SignExtend(a, b)
  {
    if a < 31 {
      var t := a * 8 + 7;
      LowThenOnes(b, t);
      OddQuotient(b, t);
      Pow2Below(t + 1);
      CopySignBit(LowBits(b, t), LowBits(b, t + 1), Pow2(t), ShiftDown(b, t) % 2 == 1);
    }
  }

  /** Setting all bits from the sign bit upwards, by addition and by wrap-around. */
  lemma {:induction false} CopySignBit(lower: int, low: int, d: int, odd: bool)
    requires 0 <= lower < d && 2 * d < MODULUS
    requires low == lower + (if odd then d else 0)
    ensures (if odd then lower + (MODULUS - d) else lower) == (if low >= d then Wrap(low - 2 * d) else Wrap(low))
  {
    if odd { WrapShift(low - 2 * d, 1); }
  }

  lemma {:induction false} FoldSound1(r: Rule, read: Reader, k: Constants, x: Word, y: Word)
    requires r in Fold1()
    ensures Preserves(r, read, k, x, y)
  {
    if k.b != 0 { SignedOps(k.a, k.b); }
  }

  lemma {:induction false} FoldSound2(r: Rule, read: Reader, k: Constants, x: Word, y: Word)
    requires r in Fold2()
    ensures Preserves(r, read, k, x, y)
  {
    if k.b != 0 { SignedOps(k.a, k.b); }
    PowModulo(k.a, k.b);
  }

  lemma {:induction false} FoldSound3(r: Rule, read: Reader, k: Constants, x: Word, y: Word)
    requires r in Fold3()
    ensures Preserves(r, read, k, x, y)
  {
  }

  lemma {:induction false} FoldSound4(r: Rule, read: Reader, k: Constants, x: Word, y: Word)
    requires r in Fold4()
    ensures Preserves(r, read, k, x, y)
  {
    if k.a < 32 { LowByte(ShiftDown(k.b, 8 * (31 - k.a))); }
  }

  lemma {:induction false} FoldSound5(r: Rule, read: Reader, k: Constants, x: Word, y: Word)
    requires r in Fold5() && r != UnreachableMulMod()
    ensures Preserves(r, read, k, x, y)
  {
  }

  lemma {:induction false} FoldSound6(r: Rule, read: Reader, k: Constants, x: Word, y: Word)
    requires r in Fold6()
    ensures Preserves(r, read, k, x, y)
  {
    SignExtension(k.a, k.b);
    if k.a < 256 { ShlWorkaroundIsShl(k.b, k.a); }
  }

  // ----- part 2 -----

  lemma {:induction false} KnownSound1(r: Rule, read: Reader, k: Constants, x: Word, y: Word)
    requires r in Known1()
    ensures Preserves(r, read, k, x, y)
  {
  }

  lemma {:induction false} KnownSound2(r: Rule, read: Reader, k: Constants, x: Word, y: Word)
    requires r in Known2()
    ensures Preserves(r, read, k, x, y)
  {
    MulAllOnes(x);
    assert Mul(x, 1) == x && Mul(1, x) == x;
    var i :| 0 <= i < 4 && r == Known2()[i];
  }

  lemma {:induction false} KnownSound3(r: Rule, read: Reader, k: Constants, x: Word, y: Word)
    requires r in Known3()
    ensures Preserves(r, read, k, x, y)
  {
    DivisionEdges(x);
  }

  lemma {:induction false} DivisionEdges(x: Word)
    ensures Div(0, x) == 0 && Div(x, 1) == x
    ensures Sdiv(0, x) == 0 && Sdiv(x, 1) == x
  {
    if x != 0 {
      DivBounds(0, x);
      DivBounds(0, AbsInt(Signed(x)));
    }
    assert DivNat(AbsInt(Signed(x)), 1) == AbsInt(Signed(x));
    if x >= HALF { WrapShift(x, -1); }
  }

  lemma {:induction false} KnownSound4(r: Rule, read: Reader, k: Constants, x: Word, y: Word)
    requires r in Known4()
    ensures Preserves(r, read, k, x, y)
  {
    AndOnes(x);
  }

  lemma {:induction false} KnownSound5(r: Rule, read: Reader, k: Constants, x: Word, y: Word)
    requires r in Known5()
    ensures Preserves(r, read, k, x, y)
  {
    OrZeroOnes(x);
  }

  lemma {:induction false} KnownSound6(r: Rule, read: Reader, k: Constants, x: Word, y: Word)
    requires r in Known6()
    ensures Preserves(r, read, k, x, y)
  {
    XorZero(x);
  }

  lemma {:induction false} KnownSound7(r: Rule, read: Reader, k: Constants, x: Word, y: Word)
    requires r in Known7()
    ensures Preserves(r, read, k, x, y)
  {
    ShiftByZero(x);
    ShiftOfZero(x);
  }

  lemma {:induction false} KnownSound8(r: Rule, read: Reader, k: Constants, x: Word, y: Word)
    requires r in Known8()
    ensures Preserves(r, read, k, x, y)
  {
  }

  lemma {:induction false} KnownSound9(r: Rule, read: Reader, k: Constants, x: Word, y: Word)
    requires r in Known9()
    ensures Preserves(r, read, k, x, y)
  {
    ByteIsSmall(x, y);
    LastByte(x);
  }

  // ----- parts 3 and 4 -----

  lemma {:induction false} SelfSound1(r: Rule, read: Reader, k: Constants, x: Word, y: Word)
    requires r in Self1()
    ensures Preserves(r, read, k, x, y)
  {
    Idempotent(x);
  }

  lemma {:induction false} SelfSound2(r: Rule, read: Reader, k: Constants, x: Word, y: Word)
    requires r in Self2()
    ensures Preserves(r, read, k, x, y)
  {
    assert x != 0 ==> x % x == 0;
  }

  lemma {:induction false} LogicSound1(r: Rule, read: Reader, k: Constants, x: Word, y: Word)
    requires r in Logic1()
    ensures Preserves(r, read, k, x, y)
  {
    XorTwice(x, y);
  }

  lemma {:induction false} LogicSound2(r: Rule, read: Reader, k: Constants, x: Word, y: Word)
    requires r in Logic2()
    ensures Preserves(r, read, k, x, y)
  {
    OrAbsorbs(x, y);
  }

  lemma {:induction false} LogicSound3(r: Rule, read: Reader, k: Constants, x: Word, y: Word)
    requires r in Logic3()
    ensures Preserves(r, read, k, x, y)
  {
    AndAbsorbs(x, y);
  }

  lemma {:induction false} LogicSound4(r: Rule, read: Reader, k: Constants, x: Word, y: Word)
    requires r in Logic4()
    ensures Preserves(r, read, k, x, y)
  {
    Complements(x);
  }

  // ----- part 5 -----

  lemma {:induction false} ModPowersSound(r: Rule, read: Reader, k: Constants, x: Word, y: Word)
    requires r in ModPowers()
    ensures Preserves(r, read, k, x, y)
  {
    var i :| 0 <= i < 256 && r == ModPowers()[i];
    ModPowerSound(i, read, k, x, y);
  }

  lemma {:induction false} ModPowerSound(i: nat, read: Reader, k: Constants, x: Word, y: Word)
    requires i < 256
    ensures Preserves(ModPowerRule(i), read, k, x, y)
  {
    Pow2Below(i);
    MaskIsRemainder(x, i);
    ShiftDownIsQuotient(x, i);
    var d: Word, m: Word := Pow2(i), Pow2(i) - 1;
    assert Mod(x, d) == And(x, m);
  }

  lemma {:induction false} BigShiftsSound(r: Rule, read: Reader, k: Constants, x: Word, y: Word)
    requires r in BigShifts()
    ensures Preserves(r, read, k, x, y)
  {
  }

  lemma {:induction false} MaskedAddressSound(op: Opcode, r: Rule, read: Reader, k: Constants, x: Word, y: Word)
    requires r in MaskedAddress(op) && read(op, []) < ADDRESS_LIMIT
    ensures Preserves(r, read, k, x, y)
  {
    AddressLimitIsPower();
    SmallUnderMask(read(op, []), 160);
    CommutativeOps(AND, read(op, []), ADDRESS_LIMIT - 1);
  }

  lemma {:induction false} AddressLimitIsPower()
    ensures Pow2(160) == ADDRESS_LIMIT
  {
    assert Pow2(5) == 32;
    Pow2Square(5, 32);
    Pow2Square(10, 0x400);
    Pow2Square(20, 0x10_0000);
    Pow2Square(40, 0x100_0000_0000);
    Pow2Square(80, 0x1_0000_0000_0000_0000_0000);
  }

  // ----- part 6 -----

  lemma {:induction false} NegationsSound(r: Rule, read: Reader, k: Constants, x: Word, y: Word)
    requires r in Negations()
    ensures Preserves(r, read, k, x, y)
  {
    XorZeroMeansEqual(x, y);
    forall op: Opcode | r == DoubleNegation(op) && op in {EQ, LT, SLT, GT, SGT}
      ensures Preserves(r, read, k, x, y)
    {
      DoubleNegationSound(op, read, k, x, y);
    }
    if r == To(Apply1(ISZERO, Apply1(ISZERO, Apply1(ISZERO, X))), Apply1(ISZERO, X)) {
      assert EvalPattern(Apply1(ISZERO, X), read, k, x, y) == Flag(x == 0);
    }
  }

  lemma {:induction false} DoubleNegationSound(op: Opcode, read: Reader, k: Constants, x: Word, y: Word)
    requires op in {EQ, LT, SLT, GT, SGT}
    ensures Preserves(DoubleNegation(op), read, k, x, y)
  {
    var v := EvalPattern(Apply2(op, X, Y), read, k, x, y);
    assert v == Arith2(op, x, y) && (v == 0 || v == 1);
  }

  // ----- part 7 -----

  /** Reassociation and reordering for one of the five operations of part 7. */
  lemma {:induction false} Reassociate(op: Opcode, x: Word, y: Word, z: Word)
    requires op in {ADD, MUL, AND, OR, XOR}
    ensures Arith2(op, Arith2(op, x, y), z) == Arith2(op, x, Arith2(op, y, z))
    ensures Arith2(op, x, y) == Arith2(op, y, x)
  {
    CommutativeOps(op, x, y);
    if op == ADD { AddAssociative(x, y, z); }
    else if op == MUL { MulAssociative(x, y, z); }
    else if op == AND { AndAssociative(x, y, z); }
    else if op == OR { OrAssociative(x, y, z); }
    else if op == XOR { XorAssociative(x, y, z); }
  }

  lemma {:induction false} AssociativeSound(op: Opcode, p: Pattern, q: Pattern, r: Rule, read: Reader, k: Constants,
      x: Word, y: Word)
    requires op in {ADD, MUL, AND, OR, XOR} && ((p == X && q == A) || (p == A && q == X))
    requires r in Associative(op, p, q)
    ensures Preserves(r, read, k, x, y)
  {
    var i :| 0 <= i < 4 && r == Associative(op, p, q)[i];
    var inner := EvalPattern(Apply2(op, p, q), read, k, x, y);
    Reassociate(op, x, k.a, k.b);
    assert inner == Arith2(op, x, k.a);
    if i == 0 || i == 2 {
      Reassociate(op, inner, k.b, 0);
    } else {
      assert EvalPattern(Apply2(op, X, Y), read, k, x, y) == Arith2(op, x, y);
      assert EvalPattern(Apply2(op, Y, X), read, k, x, y) == Arith2(op, y, x);
      MoveConstantOut(op, x, y, k.a);
    }
  }

  lemma {:induction false} MoveConstantOut(op: Opcode, x: Word, y: Word, a: Word)
    requires op in {ADD, MUL, AND, OR, XOR}
    ensures Arith2(op, Arith2(op, x, a), y) == Arith2(op, Arith2(op, x, y), a)
    ensures Arith2(op, y, Arith2(op, x, a)) == Arith2(op, Arith2(op, y, x), a)
  {
    Reassociate(op, x, a, y);
    Reassociate(op, a, y, 0);
    Reassociate(op, x, y, a);
    Reassociate(op, y, x, a);
  }

  lemma {:induction false} ShiftPairsSound1(r: Rule, read: Reader, k: Constants, x: Word, y: Word)
    requires r == CombineShifts(SHL) || r == CombineShifts(SHR)
    ensures Preserves(r, read, k, x, y)
  {
    ShlShl(k.a, k.b, x);
    ShrShr(k.a, k.b, x);
  }

  lemma {:induction false} EvalShlThenShr(read: Reader, k: Constants, x: Word, y: Word)
    requires k.a < 256 && k.b < 256
    ensures EvalPattern(ShlThenShr(k), read, k, x, y) == Shr(k.b, Shl(k.a, x))
  {
    ShrShl(k.a, k.b, x);
    ShiftByZero(x);
    ShlWorkaroundIsShl(MAX_WORD, k.a);
    assert ShrWord(ShlWorkaround(MAX_WORD, k.a), k.b) == Shr(k.b, Shl(k.a, MAX_WORD));
    if k.a > k.b {
      assert EvalPattern(Apply2(SHL, Literal(k.a - k.b), X), read, k, x, y) == Shl(k.a - k.b, x);
    } else if k.b > k.a {
      assert EvalPattern(Apply2(SHR, Literal(k.b - k.a), X), read, k, x, y) == Shr(k.b - k.a, x);
    }
  }

  lemma {:induction false} EvalShrThenShl(read: Reader, k: Constants, x: Word, y: Word)
    requires k.a < 256 && k.b < 256
    ensures EvalPattern(ShrThenShl(k), read, k, x, y) == Shl(k.b, Shr(k.a, x))
  {
    ShlShr(k.a, k.b, x);
    ShiftByZero(x);
    ShlWorkaroundIsShl(ShrWord(MAX_WORD, k.a), k.b);
    assert ShlWorkaround(ShrWord(MAX_WORD, k.a), k.b) == Shl(k.b, Shr(k.a, MAX_WORD));
    if k.a > k.b {
      assert EvalPattern(Apply2(SHR, Literal(k.a - k.b), X), read, k, x, y) == Shr(k.a - k.b, x);
    } else if k.b > k.a {
      assert EvalPattern(Apply2(SHL, Literal(k.b - k.a), X), read, k, x, y) == Shl(k.b - k.a, x);
    }
  }

  lemma {:induction false} ShiftPairsSound2(r: Rule, read: Reader, k: Constants, x: Word, y: Word)
    requires r == ShiftPairs()[2] || r == ShiftPairs()[3]
    ensures Preserves(r, read, k, x, y)
  {
    if k.a < 256 && k.b < 256 {
      EvalShlThenShr(read, k, x, y);
      EvalShrThenShl(read, k, x, y);
      assert EvalPattern(Apply2(SHL, A, X), read, k, x, y) == Shl(k.a, x);
      assert EvalPattern(Apply2(SHR, A, X), read, k, x, y) == Shr(k.a, x);
    }
  }

  lemma {:induction false} ShiftedMaskSound(op: Opcode, p: Pattern, q: Pattern, read: Reader, k: Constants, x: Word,
      y: Word)
    requires (op == SHL || op == SHR) && ((p == X && q == A) || (p == A && q == X))
    ensures Preserves(ShiftedMask(op, p, q), read, k, x, y)
  {
    if k.b < 256 {
      ShiftOfAnd(k.b, x, k.a);
      ShlWorkaroundIsShl(k.a, k.b);
      CommutativeOps(AND, x, k.a);
      assert EvalPattern(Apply2(AND, p, q), read, k, x, y) == And(x, k.a);
      assert EvalPattern(Apply2(op, Literal(k.b), X), read, k, x, y) == Arith2(op, k.b, x);
    }
  }

  lemma {:induction false} ShiftProductsSound(r: Rule, read: Reader, k: Constants, x: Word, y: Word)
    requires r in ShiftProducts()
    ensures Preserves(r, read, k, x, y)
  {
    ShlIsProduct(y, x);
    ShlIsProduct(x, y);
    ShrIsQuotient(y, x);
  }

  lemma {:induction false} NeedlessMasksSound(r: Rule, read: Reader, k: Constants, x: Word, y: Word)
    requires r in NeedlessMasks()
    ensures Preserves(r, read, k, x, y)
  {
    if CoversShifted(k) {
      ShiftAllOut();
      assert Shr(k.b, MAX_WORD) == ShrWord(MAX_WORD, k.b);
      MaskAfterShr(k.a, k.b, x);
    }
  }

  lemma {:induction false} ShiftAllOut()
    ensures ShrWord(MAX_WORD, 256) == 0
  {
    Pow2At256();
    ShiftDownIsQuotient(MAX_WORD, 256);
  }

  // ----- part 8 -----

  lemma {:induction false} SubtractionsSound(r: Rule, read: Reader, k: Constants, x: Word, y: Word)
    requires r in Subtractions()
    ensures Preserves(r, read, k, x, y)
  {
    var i :| 0 <= i < 5 && r == Subtractions()[i];
    assert EvalPattern(Apply2(SUB, X, Y), read, k, x, y) == Sub(x, y);
    if i == 0 {
      SubIsAdd(x, k.a);
    } else if i <= 2 {
      SubOfSum(x, y, k.a);
    } else {
      SubAcrossSum(x, y, k.a);
    }
  }

  // ----- the whole list -----

  /** What a rule must offer: it preserves values and builds well-formed expressions. */
  ghost predicate Good(r: Rule, read: Reader, k: Constants, x: Word, y: Word) {
    Preserves(r, read, k, x, y) && PatternOk(r.pattern) && PatternOk(r.action(k))
  }

  lemma {:induction false} FoldRulesGood(r: Rule, read: Reader, k: Constants, x: Word, y: Word)
    requires r in FoldRules() && r != UnreachableMulMod()
    ensures Good(r, read, k, x, y)
  {
    if r in Fold1() { FoldSound1(r, read, k, x, y); }
    else if r in Fold2() { FoldSound2(r, read, k, x, y); }
    else if r in Fold3() { FoldSound3(r, read, k, x, y); }
    else if r in Fold4() { FoldSound4(r, read, k, x, y); }
    else if r in Fold5() { FoldSound5(r, read, k, x, y); }
    else { FoldSound6(r, read, k, x, y); }
    FoldShapes(r, k);
  }

  lemma {:induction false} FoldShapes(r: Rule, k: Constants)
    requires r in FoldRules()
    ensures PatternOk(r.pattern) && PatternOk(r.action(k))
  {
    hide PatternOk, Fold1, Fold2, Fold3, Fold4, Fold5, Fold6;
    if r in Fold1() || r in Fold2() || r in Fold3() { FoldShapesFirst(r, k); } else { FoldShapesLast(r, k); }
  }

  lemma {:induction false} FoldShapesFirst(r: Rule, k: Constants)
    requires r in Fold1() || r in Fold2() || r in Fold3()
    ensures PatternOk(r.pattern) && PatternOk(r.action(k))
  {
  }

  lemma {:induction false} FoldShapesLast(r: Rule, k: Constants)
    requires r in Fold4() || r in Fold5() || r in Fold6()
    ensures PatternOk(r.pattern) && PatternOk(r.action(k))
  {
  }

  lemma {:induction false} KnownRulesGood(r: Rule, read: Reader, k: Constants, x: Word, y: Word)
    requires r in KnownRules()
    ensures Good(r, read, k, x, y)
  {
    if r in Known1() { KnownSound1(r, read, k, x, y); }
    else if r in Known2() { KnownSound2(r, read, k, x, y); }
    else if r in Known3() { KnownSound3(r, read, k, x, y); }
    else if r in Known4() { KnownSound4(r, read, k, x, y); }
    else if r in Known5() { KnownSound5(r, read, k, x, y); }
    else if r in Known6() { KnownSound6(r, read, k, x, y); }
    else if r in Known7() { KnownSound7(r, read, k, x, y); }
    else if r in Known8() { KnownSound8(r, read, k, x, y); }
    else { KnownSound9(r, read, k, x, y); }
    KnownShapes(r, k);
  }

  lemma {:induction false} KnownShapes(r: Rule, k: Constants)
    requires r in KnownRules()
    ensures PatternOk(r.pattern) && PatternOk(r.action(k))
  {
    if r in Known1() || r in Known2() || r in Known3() || r in Known4() || r in Known5() { KnownShapesFirst(r, k); }
    else { KnownShapesLast(r, k); }
  }

  lemma {:induction false} KnownShapesFirst(r: Rule, k: Constants)
    requires r in Known1() || r in Known2() || r in Known3() || r in Known4() || r in Known5()
    ensures PatternOk(r.pattern) && PatternOk(r.action(k))
  {
  }

  lemma {:induction false} KnownShapesLast(r: Rule, k: Constants)
    requires r in Known6() || r in Known7() || r in Known8() || r in Known9()
    ensures PatternOk(r.pattern) && PatternOk(r.action(k))
  {
  }

  lemma {:induction false} LogicRulesGood(r: Rule, read: Reader, k: Constants, x: Word, y: Word)
    requires r in LogicRules()
    ensures Good(r, read, k, x, y)
  {
    if r in Self1() { SelfSound1(r, read, k, x, y); }
    else if r in Self2() { SelfSound2(r, read, k, x, y); }
    else if r in Logic1() { LogicSound1(r, read, k, x, y); }
    else if r in Logic2() { LogicSound2(r, read, k, x, y); }
    else if r in Logic3() { LogicSound3(r, read, k, x, y); }
    else { LogicSound4(r, read, k, x, y); }
    LogicShapes(r, k);
  }

  lemma {:induction false} LogicShapes(r: Rule, k: Constants)
    requires r in LogicRules()
    ensures PatternOk(r.pattern) && PatternOk(r.action(k))
  {
    if r in Self1() || r in Self2() || r in Logic1() { LogicShapesFirst(r, k); } else { LogicShapesLast(r, k); }
  }

  lemma {:induction false} LogicShapesFirst(r: Rule, k: Constants)
    requires r in Self1() || r in Self2() || r in Logic1()
    ensures PatternOk(r.pattern) && PatternOk(r.action(k))
  {
  }

  lemma {:induction false} LogicShapesLast(r: Rule, k: Constants)
    requires r in Logic2() || r in Logic3() || r in Logic4()
    ensures PatternOk(r.pattern) && PatternOk(r.action(k))
  {
  }

  lemma {:induction false} MaskRulesGood(r: Rule, read: Reader, k: Constants, x: Word, y: Word)
    requires r in MaskRules() && r !in MaskedCreations() && ReadsAddresses(read)
    ensures Good(r, read, k, x, y)
  {
    if r in ModPowers() { ModPowersSound(r, read, k, x, y); }
    else if r in BigShifts() { BigShiftsSound(r, read, k, x, y); }
    else if r in MaskedAddress(ADDRESS) { MaskedAddressSound(ADDRESS, r, read, k, x, y); }
    else if r in MaskedAddress(CALLER) { MaskedAddressSound(CALLER, r, read, k, x, y); }
    else if r in MaskedAddress(ORIGIN) { MaskedAddressSound(ORIGIN, r, read, k, x, y); }
    else { MaskedAddressSound(COINBASE, r, read, k, x, y); }
    MaskShapes(r, k);
  }

  lemma {:induction false} MaskShapes(r: Rule, k: Constants)
    requires r in MaskRules() && r !in MaskedCreations()
    ensures PatternOk(r.pattern) && PatternOk(r.action(k))
  {
  }

  lemma {:induction false} AssociativeBothGood(op: Opcode, r: Rule, read: Reader, k: Constants, x: Word, y: Word)
    requires op in {ADD, MUL, AND, OR, XOR} && r in AssociativeBoth(op)
    ensures Good(r, read, k, x, y)
  {
    if r in Associative(op, X, A) {
      AssociativeSound(op, X, A, r, read, k, x, y);
      AssociativeShapes(op, X, A, r, k);
    } else {
      AssociativeSound(op, A, X, r, read, k, x, y);
      AssociativeShapes(op, A, X, r, k);
    }
  }

  lemma {:induction false} AssociativeShapes(op: Opcode, p: Pattern, q: Pattern, r: Rule, k: Constants)
    requires op in {ADD, MUL, AND, OR, XOR} && r in Associative(op, p, q) && PatternOk(p) && PatternOk(q)
    ensures PatternOk(r.pattern) && PatternOk(r.action(k))
  {
    PairShape(op, p, q);
    PairShape(op, X, Y);
    PairShape(op, Y, X);
    var i :| 0 <= i < 4 && r == Associative(op, p, q)[i];
    LeavesOk();
    if i == 0 {
      PairShape(op, Apply2(op, p, q), B);
    } else if i == 1 {
      PairShape(op, Apply2(op, p, q), Y);
      PairShape(op, Apply2(op, X, Y), A);
    } else if i == 2 {
      PairShape(op, B, Apply2(op, p, q));
    } else {
      PairShape(op, Y, Apply2(op, p, q));
      PairShape(op, Apply2(op, Y, X), A);
    }
  }

  lemma {:induction false} LeavesOk()
    ensures PatternOk(X) && PatternOk(Y) && PatternOk(A) && PatternOk(B) && forall w: Word :: PatternOk(Literal(w))
  {
  }

  lemma {:induction false} PairShape(op: Opcode, p: Pattern, q: Pattern)
    requires op in {ADD, MUL, AND, OR, XOR} && PatternOk(p) && PatternOk(q)
    ensures PatternOk(Apply2(op, p, q))
  {
  }

  lemma {:induction false} AssociativeRulesGood(r: Rule, read: Reader, k: Constants, x: Word, y: Word)
    requires r in AssociativeRules()
    ensures Good(r, read, k, x, y)
  {
    var op :| op in {ADD, MUL, AND, OR, XOR} && r in AssociativeBoth(op);
    AssociativeBothGood(op, r, read, k, x, y);
  }

  lemma {:induction false} ShiftRulesGood(r: Rule, read: Reader, k: Constants, x: Word, y: Word)
    requires r in ShiftRules()
    ensures Good(r, read, k, x, y)
  {
    if r in ShiftPairs() {
      if r == ShiftPairs()[0] || r == ShiftPairs()[1] { ShiftPairsSound1(r, read, k, x, y); } else { ShiftPairsSound2(r, read, k, x, y); }
    } else if r in ShiftedMasks() {
      ShiftedMaskSound(SHL, X, A, read, k, x, y);
      ShiftedMaskSound(SHL, A, X, read, k, x, y);
      ShiftedMaskSound(SHR, X, A, read, k, x, y);
      ShiftedMaskSound(SHR, A, X, read, k, x, y);
    } else if r in ShiftProducts() {
      ShiftProductsSound(r, read, k, x, y);
    } else {
      NeedlessMasksSound(r, read, k, x, y);
    }
    ShiftShapes(r, k);
  }

  lemma {:induction false} ShiftShapes(r: Rule, k: Constants)
    requires r in ShiftRules()
    ensures PatternOk(r.pattern) && PatternOk(r.action(k))
  {
    if r in ShiftPairs() { ShiftPairShapes(r, k); }
    else if r in ShiftedMasks() { ShiftedMaskShapes(r, k); }
    else { ShiftedRestShapes(r, k); }
  }

  lemma {:induction false} ShiftPairShapes(r: Rule, k: Constants)
    requires r in ShiftPairs()
    ensures PatternOk(r.pattern) && PatternOk(r.action(k))
  {
  }

  lemma {:induction false} ShiftedMaskShapes(r: Rule, k: Constants)
    requires r in ShiftedMasks()
    ensures PatternOk(r.pattern) && PatternOk(r.action(k))
  {
  }

  lemma {:induction false} ShiftedRestShapes(r: Rule, k: Constants)
    requires r in ShiftProducts() || r in NeedlessMasks()
    ensures PatternOk(r.pattern) && PatternOk(r.action(k))
  {
  }

  /** Every rule but the shadowed MULMOD entry and the masked creations preserves values. */
  lemma {:induction false} RuleGood(r: Rule, read: Reader, k: Constants, x: Word, y: Word)
    requires r in RuleList() && r != UnreachableMulMod() && r !in MaskedCreations()
    requires ReadsAddresses(read)
    ensures Good(r, read, k, x, y)
  {
    if r in FoldRules() { FoldRulesGood(r, read, k, x, y); }
    else if r in KnownRules() { KnownRulesGood(r, read, k, x, y); }
    else if r in LogicRules() { LogicRulesGood(r, read, k, x, y); }
    else if r in MaskRules() { MaskRulesGood(r, read, k, x, y); }
    else if r in Negations() { NegationsSound(r, read, k, x, y); NegationShapes(r, k); }
    else if r in AssociativeRules() { AssociativeRulesGood(r, read, k, x, y); }
    else if r in ShiftRules() { ShiftRulesGood(r, read, k, x, y); }
    else { SubtractionsSound(r, read, k, x, y); SubtractionShapes(r, k); }
  }

  lemma {:induction false} NegationShapes(r: Rule, k: Constants)
    requires r in Negations()
    ensures PatternOk(r.pattern) && PatternOk(r.action(k))
  {
  }

  lemma {:induction false} SubtractionShapes(r: Rule, k: Constants)
    requires r in Subtractions()
    ensures PatternOk(r.pattern) && PatternOk(r.action(k))
  {
  }

  lemma {:induction false} RuleShaped(r: Rule, k: Constants)
    requires r in RuleList() && r != UnreachableMulMod() && r !in MaskedCreations()
    ensures PatternOk(r.pattern) && PatternOk(r.action(k))
  {
    var zero: Reader := (op, args) => 0;
    RuleGood(r, zero, k, 0, 0);
  }

  lemma {:induction false} RulePreserves(r: Rule, read: Reader, k: Constants, x: Word, y: Word)
    requires r in RuleList() && r != UnreachableMulMod() && r !in MaskedCreations() && ReadsAddresses(read)
    ensures Preserves(r, read, k, x, y)
  {
    RuleGood(r, read, k, x, y);
  }
}
