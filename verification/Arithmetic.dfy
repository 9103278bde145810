/** The arithmetic instructions of the EVM (appendix H of the Ethereum Yellow
    Paper) as functions on words. The first operand is the top of the stack. */
module Arithmetic {
  import opened Words
  import opened Instructions

  function Wrap(x: int): Word { x % MODULUS }

  function Flag(b: bool): Word { if b then 1 else 0 }

  function Signed(x: Word): int { if x < HALF then x else x - MODULUS }

  function AbsInt(x: int): nat { if x < 0 then -x else x }

  /** Division and remainder that round towards zero. */
  function TruncatedDiv(x: int, y: int): int
    requires y != 0
  {
    var q: int := DivNat(AbsInt(x), AbsInt(y));
    if (x < 0) == (y < 0) then q else -q
  }

  function TruncatedMod(x: int, y: int): int
    requires y != 0
  {
    var r := AbsInt(x) % AbsInt(y);
    if x < 0 then -r else r
  }

  function Add(x: Word, y: Word): Word { Wrap(x + y) }
  function Mul(x: Word, y: Word): Word { Wrap(x * y) }
  function Sub(x: Word, y: Word): Word { Wrap(x - y) }
  function Div(x: Word, y: Word): Word { if y == 0 then 0 else DivNat(x, y) }
  function Mod(x: Word, y: Word): Word { if y == 0 then 0 else x % y }
  function Sdiv(x: Word, y: Word): Word { if y == 0 then 0 else Wrap(TruncatedDiv(Signed(x), Signed(y))) }
  function Smod(x: Word, y: Word): Word { if y == 0 then 0 else Wrap(TruncatedMod(Signed(x), Signed(y))) }
  function AddMod(x: Word, y: Word, m: Word): Word { if m == 0 then 0 else (x + y) % m }
  function MulMod(x: Word, y: Word, m: Word): Word { if m == 0 then 0 else (x * y) % m }

  function Exp(x: Word, n: nat): Word {
    if n == 0 then 1 else Mul(x, Exp(x, n - 1))
  }

  function Not(x: Word): Word { MAX_WORD - x }

  function And(x: Word, y: Word): Word { AndNat(x, y) }

  function Or(x: Word, y: Word): Word { OrBounded(x, y); OrNat(x, y) }

  function Xor(x: Word, y: Word): Word { XorBounded(x, y); XorNat(x, y) }

  lemma {:induction false} OrBounded(x: Word, y: Word)
    ensures OrNat(x, y) < MODULUS
  {
    Pow2At256();
    forall i: nat | i >= 256 ensures !Bit(OrNat(x, y), i) {
      BitOr(x, y, i); HighBit(x, i); HighBit(y, i);
    }
    BelowByBits(OrNat(x, y), 256);
  }

  lemma {:induction false} XorBounded(x: Word, y: Word)
    ensures XorNat(x, y) < MODULUS
  {
    Pow2At256();
    forall i: nat | i >= 256 ensures !Bit(XorNat(x, y), i) {
      BitXor(x, y, i); HighBit(x, i); HighBit(y, i);
    }
    BelowByBits(XorNat(x, y), 256);
  }

  function Shl(s: Word, x: Word): Word { if s >= 256 then 0 else Wrap(ShiftUp(x, s)) }
  function Shr(s: Word, x: Word): Word { if s >= 256 then 0 else ShiftDown(x, s) }
  function Sar(s: Word, x: Word): Word {
    if x < HALF then Shr(s, x) else if s >= 256 then MAX_WORD else Not(Shr(s, Not(x)))
  }

  /** Byte n of x, counted from the most significant one. */
  function ByteOf(n: Word, x: Word): Word {
    if n >= 32 then 0 else ShiftDown(x, 8 * (31 - n)) % 256
  }

  /** Two's complement extension of x from its lowest n + 1 bytes. */
  function SignExtend(n: Word, x: Word): Word {
    if n >= 31 then x
    else
      var bits := 8 * (n + 1);
      var low := LowBits(x, bits);
      if low >= Pow2(bits - 1) then Wrap(low - Pow2(bits)) else Wrap(low)
  }

  function Arith1(op: Opcode, x: Word): Word {
    if op == NOT then Not(x) else Flag(x == 0)
  }

  function Arith2(op: Opcode, x: Word, y: Word): Word {
    if op == ADD then Add(x, y)
    else if op == MUL then Mul(x, y)
    else if op == SUB then Sub(x, y)
    else if op == DIV then Div(x, y)
    else if op == SDIV then Sdiv(x, y)
    else if op == MOD then Mod(x, y)
    else if op == SMOD then Smod(x, y)
    else if op == EXP then Exp(x, y)
    else if op == SIGNEXTEND then SignExtend(x, y)
    else if op == LT then Flag(x < y)
    else if op == GT then Flag(x > y)
    else if op == SLT then Flag(Signed(x) < Signed(y))
    else if op == SGT then Flag(Signed(x) > Signed(y))
    else if op == EQ then Flag(x == y)
    else if op == AND then And(x, y)
    else if op == OR then Or(x, y)
    else if op == XOR then Xor(x, y)
    else if op == BYTE then ByteOf(x, y)
    else if op == SHL then Shl(x, y)
    else if op == SHR then Shr(x, y)
    else Sar(x, y)
  }

  function Arith3(op: Opcode, x: Word, y: Word, z: Word): Word {
    if op == ADDMOD then AddMod(x, y, z) else MulMod(x, y, z)
  }

  function Arith(op: Opcode, args: seq<Word>): Word
    requires IsArithmetic(op) && |args| == InfoOf(op).args
  {
    if |args| == 1 then Arith1(op, args[0])
    else if |args| == 2 then Arith2(op, args[0], args[1])
    else Arith3(op, args[0], args[1], args[2])
  }

  // ----- bits of the word operations -----

  lemma {:induction false} BitOfNot(x: Word, i: nat)
    requires i < 256
    ensures Bit(Not(x), i) == !Bit(x, i)
  {
    Pow2At256();
    BitComplement(x, 256, i);
  }

  lemma {:induction false} WrapIsLowBits(x: nat)
    ensures Wrap(x) == LowBits(x, 256)
  {
    Pow2At256();
    ShiftDownIsQuotient(x, 256);
  }

  lemma {:induction false} BitOfShl(s: Word, x: Word, i: nat)
    requires i < 256
    ensures Bit(Shl(s, x), i) == (i >= s && Bit(x, i - s))
  {
    if s >= 256 {
      BitsOfZero(i);
    } else {
      WrapIsLowBits(ShiftUp(x, s));
      BitLowBits(ShiftUp(x, s), 256, i);
      BitShiftUp(x, s, i);
    }
  }

  lemma {:induction false} BitOfShr(s: Word, x: Word, i: nat)
    ensures Bit(Shr(s, x), i) == Bit(x, i + s)
  {
    if s >= 256 {
      BitsOfZero(i);
      HighBit(x, i + s);
    } else {
      BitShiftDown(x, s, i);
    }
  }

  lemma {:induction false} BitOfMax(i: nat)
    ensures Bit(MAX_WORD, i) == (i < 256)
  {
    Pow2At256();
    BitOfPow2Minus1(256, i);
  }

  /** The operations called commutative in the instruction classification are. */
  lemma {:induction false} CommutativeOps(op: Opcode, x: Word, y: Word)
    requires IsCommutative(op)
    ensures Arith2(op, x, y) == Arith2(op, y, x)
  {
    if op == AND {
      forall i: nat | i < 256 ensures Bit(And(x, y), i) == Bit(And(y, x), i) {
        BitAnd(x, y, i); BitAnd(y, x, i);
      }
      WordsByBits(And(x, y), And(y, x));
    } else if op == OR {
      forall i: nat | i < 256 ensures Bit(Or(x, y), i) == Bit(Or(y, x), i) {
        BitOr(x, y, i); BitOr(y, x, i);
      }
      WordsByBits(Or(x, y), Or(y, x));
    } else if op == XOR {
      forall i: nat | i < 256 ensures Bit(Xor(x, y), i) == Bit(Xor(y, x), i) {
        BitXor(x, y, i); BitXor(y, x, i);
      }
      WordsByBits(Xor(x, y), Xor(y, x));
    }
  }
}
