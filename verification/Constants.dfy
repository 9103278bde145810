/** Synthesis of constants: cheaper code that pushes the same value. */
module Constants {
  import opened Words
  import opened Instructions
  import opened Arithmetic
  import opened Laws
  import opened Items
  import opened Machine
  import opened Knowledge
  import opened Segments
  import opened Peephole

  // ----- the small evaluator that checks a routine -----

  /** One item on a stack of words, top last; None where the check fails or throws. */
  function TinyStep(item: Item, stack: seq<Word>, hasShifts: bool): Option<seq<Word>> {
    if IsPushWord(item) then Some(stack + [item.data])
    else if !item.Operation? || |stack| < Arguments(item) then None
    else
      var n := |stack|;
      if item.op == MUL then Some(stack[..n - 2] + [Mul(stack[n - 1], stack[n - 2])])
      else if item.op == EXP then if stack[n - 2] > 0xff then None else Some(stack[..n - 2] + [Exp(stack[n - 1], stack[n - 2])])
      else if item.op == ADD then Some(stack[..n - 2] + [Add(stack[n - 1], stack[n - 2])])
      else if item.op == SUB then Some(stack[..n - 2] + [Sub(stack[n - 1], stack[n - 2])])
      else if item.op == NOT then Some(stack[..n - 1] + [Not(stack[n - 1])])
      else if item.op == SHL then if !hasShifts || stack[n - 1] > 255 then None else Some(stack[..n - 2] + [Shl(stack[n - 1], stack[n - 2])])
      else if item.op == SHR then if !hasShifts || stack[n - 1] > 255 then None else Some(stack[..n - 2] + [Shr(stack[n - 1], stack[n - 2])])
      else None
  }

  function TinyRun(items: seq<Item>, stack: seq<Word>, hasShifts: bool): Option<seq<Word>>
    decreases |items|
  {
    if |items| == 0 then Some(stack)
    else
      var r := TinyRun(items[..|items| - 1], stack, hasShifts);
      if r.None? then None else TinyStep(items[|items| - 1], r.value, hasShifts)
  }

  /** Recomputes the value of a routine. */
  method CheckRepresentation(value: Word, routine: seq<Item>, hasShifts: bool) returns (ok: bool)
    ensures ok <==> TinyRun(routine, [], hasShifts) == Some([value])
  {
    hide TinyStep;
    var stack: seq<Word> := [];
    for i := 0 to |routine|
      invariant TinyRun(routine[..i], [], hasShifts) == Some(stack)
    {
      assert routine[..i + 1][..i] == routine[..i];
      var r := TinyStep(routine[i], stack, hasShifts);
      if r.None? {
        TinyFails(routine, i + 1, [], hasShifts);
        return false;
      }
      stack := r.value;
    }
    assert routine[..|routine|] == routine;
    ok := |stack| == 1 && stack[0] == value;
    assert ok <==> stack == [value];
  }

  lemma {:induction false} TinyFails(items: seq<Item>, k: nat, stack: seq<Word>, hasShifts: bool)
    requires k <= |items| && TinyRun(items[..k], stack, hasShifts).None?
    ensures TinyRun(items, stack, hasShifts).None?
    decreases |items|
  {
    hide TinyStep;
    if k == |items| {
      assert items[..k] == items;
    } else {
      var n := |items| - 1;
      assert items[..n][..k] == items[..k];
      TinyFails(items[..n], k, stack, hasShifts);
    }
  }

  lemma {:induction false} TinyConcat(a: seq<Item>, b: seq<Item>, stack: seq<Word>, hasShifts: bool)
    ensures TinyRun(a + b, stack, hasShifts) ==
            var r := TinyRun(a, stack, hasShifts); if r.None? then None else TinyRun(b, r.value, hasShifts)
    decreases |b|
  {
    hide TinyStep;
    if |b| == 0 {
      assert a + b == a;
    } else {
      var n := |b| - 1;
      TinyConcat(a, b[..n], stack, hasShifts);
      assert (a + b)[..|a + b| - 1] == a + b[..n];
    }
  }

  /** Run on any stack, the routine pushes exactly the value. */
  ghost predicate PushesValue(routine: seq<Item>, value: Word, hasShifts: bool) {
    forall stack: seq<Word> :: TinyRun(routine, stack, hasShifts) == Some(stack + [value])
  }

  // ----- putting routines together -----

  lemma {:induction false} LiteralPushes(value: Word, hasShifts: bool)
    ensures PushesValue([PushWord(value)], value, hasShifts)
  {
    forall stack: seq<Word> ensures TinyRun([PushWord(value)], stack, hasShifts) == Some(stack + [value]) {
      assert [PushWord(value)][..0] == [];
      assert TinyRun([], stack, hasShifts) == Some(stack);
    }
  }

  lemma {:induction false} OneMore(a: seq<Item>, item: Item, stack: seq<Word>, hasShifts: bool)
    ensures TinyRun(a + [item], stack, hasShifts) ==
            var r := TinyRun(a, stack, hasShifts); if r.None? then None else TinyStep(item, r.value, hasShifts)
  {
    hide TinyStep;
    assert (a + [item])[..|a|] == a;
  }

  lemma {:induction false} NegatedPushes(routine: seq<Item>, value: Word, hasShifts: bool)
    requires PushesValue(routine, value, hasShifts)
    ensures PushesValue(routine + [Operation(NOT)], Not(value), hasShifts)
  {
    hide TinyRun;
    forall stack: seq<Word>
      ensures TinyRun(routine + [Operation(NOT)], stack, hasShifts) == Some(stack + [Not(value)])
    {
      OneMore(routine, Operation(NOT), stack, hasShifts);
      assert (stack + [value])[..|stack|] == stack;
    }
  }

  function PowerRoutine(bits: Word, hasShifts: bool): seq<Item> {
    if hasShifts then [PushWord(1), PushWord(bits), Operation(SHL)] else [PushWord(bits), PushWord(2), Operation(EXP)]
  }

  lemma {:induction false} ExpOfTwo(n: nat)
    requires n < 256
    ensures Exp(2, n) == Pow2(n)
  {
    Pow2Below(n);
    if n > 0 { ExpOfTwo(n - 1); }
  }

  lemma {:induction false} PowerPushes(bits: Word, hasShifts: bool)
    requires bits < 256
    ensures Pow2(bits) < MODULUS && PushesValue(PowerRoutine(bits, hasShifts), Pow2(bits), hasShifts)
  {
    Pow2Below(bits);
    ExpOfTwo(bits);
    ShiftUpIsProduct(1, bits);
    assert Shl(bits, 1) == Pow2(bits) by { WrapLess(Pow2(bits)); }
    hide Shl, Exp, Pow2, TinyRun;
    forall stack: seq<Word>
      ensures TinyRun(PowerRoutine(bits, hasShifts), stack, hasShifts) == Some(stack + [Pow2(bits)])
    {
      PowerRuns(bits, hasShifts, stack);
    }
  }

  lemma {:induction false} PowerRuns(bits: Word, hasShifts: bool, stack: seq<Word>)
    requires bits < 256 && Shl(bits, 1) == Exp(2, bits) == Pow2(bits) < MODULUS
    ensures TinyRun(PowerRoutine(bits, hasShifts), stack, hasShifts) == Some(stack + [Pow2(bits)])
  {
    hide Shl, Exp, Pow2, TinyRun;
    var a, b := if hasShifts then 1 else bits, if hasShifts then bits else 2;
    var op := Operation(if hasShifts then SHL else EXP);
    LiteralPushes(a, hasShifts);
    LiteralPushes(b, hasShifts);
    assert [PushWord(a)] + [PushWord(b)] == [PushWord(a), PushWord(b)];
    assert [PushWord(a), PushWord(b)] + [op] == PowerRoutine(bits, hasShifts);
    TinyConcat([PushWord(a)], [PushWord(b)], stack, hasShifts);
    OneMore([PushWord(a), PushWord(b)], op, stack, hasShifts);
    var two := stack + [a] + [b];
    assert two[..|stack|] == stack;
  }

  lemma {:induction false} BinaryPushes(first: seq<Item>, second: seq<Item>, op: Opcode, x: Word, y: Word, r: Word,
      hasShifts: bool)
    requires PushesValue(first, y, hasShifts) && PushesValue(second, x, hasShifts)
    requires (op == MUL && r == Mul(x, y)) || (op == ADD && r == Add(x, y)) || (op == SUB && r == Sub(x, y))
    ensures PushesValue(first + second + [Operation(op)], r, hasShifts)
  {
    hide TinyRun, Mul, Add, Sub;
    forall stack: seq<Word> ensures TinyRun(first + second + [Operation(op)], stack, hasShifts) == Some(stack + [r]) {
      TinyConcat(first, second, stack, hasShifts);
      OneMore(first + second, Operation(op), stack, hasShifts);
      assert (stack + [y] + [x])[..|stack|] == stack;
    }
  }

  // ----- decomposition -----

  lemma {:induction false} BytesMonotone(x: nat, y: nat)
    requires x <= y
    ensures BytesRequired(x) <= BytesRequired(y)
    decreases y
  {
    if x > 0 { BytesMonotone(x / 256, y / 256); }
  }

  /** A value as upper * 2^bits + lower, the lower part taken negative if that is nearer. */
  datatype Split = Split(upper: nat, lower: int)

  function SplitAt(value: Word, bits: nat): Split {
    var p, q, low := Pow2(bits), ShiftDown(value, bits), LowBits(value, bits);
    if p - low < low then Split(q + 1, low - p) else Split(q, low)
  }

  lemma {:induction false} SplitIs(value: Word, bits: nat)
    ensures value == Pow2(bits) * SplitAt(value, bits).upper + SplitAt(value, bits).lower
  {
    hide ShiftDown, LowBits, Pow2;
    ShiftDownIsQuotient(value, bits);
    OneMoreTime(Pow2(bits), ShiftDown(value, bits));
  }

  lemma {:induction false} OneMoreTime(p: int, q: int)
    ensures p * (q + 1) == p * q + p
  {
  }

  /** Worth trying: an upper part and a short lower part. */
  predicate Useful(s: Split, bits: nat)
    requires bits > 8
  {
    s.upper != 0 && AbsInt(s.lower) < Pow2(bits - 8)
  }

  /** Both parts of a useful split are smaller than the value, which is why the search ends. */
  lemma {:induction false} PartsAreSmaller(value: Word, bits: nat)
    requires 9 <= bits <= 255 && Useful(SplitAt(value, bits), bits)
    ensures SplitAt(value, bits).upper < value && AbsInt(SplitAt(value, bits).lower) < value
  {
    var s, p, small := SplitAt(value, bits), Pow2(bits), Pow2(bits - 8);
    SplitIs(value, bits);
    Pow2Sum(8, bits - 8);
    assert Pow2(8) == 256;
    assert p == 256 * small;
    Pow2Monotone(1, bits - 8);
    assert Pow2(1) == 2;
    LargeProduct(p, s.upper);
  }

  lemma {:induction false} LargeProduct(p: int, u: int)
    requires p >= 512 && u >= 1
    ensures p * u >= p && p * u >= 512 * u && 2 * (p * u) >= p + 512 * u
  {
    assert p * u - p == p * (u - 1);
    assert p * (u - 1) >= 0;
    assert p * u - 512 * u == (p - 512) * u;
    assert (p - 512) * u >= 0;
  }

  /** The value of the assembled parts, modulo 2^256. */
  lemma {:induction false} SplitValue(value: Word, bits: nat)
    requires 9 <= bits <= 255 && Useful(SplitAt(value, bits), bits)
    ensures var s := SplitAt(value, bits); s.upper < MODULUS && AbsInt(s.lower) < MODULUS && Pow2(bits) < MODULUS
    ensures var s := SplitAt(value, bits); var x := if s.upper == 1 then Pow2(bits) else Mul(s.upper, Pow2(bits));
            value == if s.lower > 0 then Add(x, s.lower) else if s.lower < 0 then Sub(x, -s.lower) else x
  {
    PartsAreSmaller(value, bits);
    Pow2Below(bits);
    SplitIs(value, bits);
    hide Pow2, SplitAt, Add, Sub, Mul;
    var s, p := SplitAt(value, bits), Pow2(bits);
    UpperValue(p, s.upper);
    Assembled(value, p * s.upper, s.lower, if s.upper == 1 then p else Mul(s.upper, p));
  }

  lemma {:induction false} UpperValue(p: Word, u: Word)
    ensures (if u == 1 then p else Mul(u, p)) == Wrap(p * u)
  {
    assert u * p == p * u;
    if u == 1 { assert p * u == p; WrapLess(p); }
  }

  lemma {:induction false} Assembled(value: Word, product: int, lower: int, x: Word)
    requires value == product + lower && x == Wrap(product) && AbsInt(lower) < MODULUS
    ensures value == if lower > 0 then Add(x, lower) else if lower < 0 then Sub(x, -lower) else x
  {
    WrapAdds(product, lower);
    WrapLess(value);
  }

  lemma {:induction false} WrapAdds(x: int, y: int)
    ensures Wrap(Wrap(x) + y) == Wrap(x + y)
  {
    var k := x / MODULUS;
    assert Wrap(x) == x - MODULUS * k;
    WrapShift(x - MODULUS * k + y, k);
  }

  // ----- the search -----

  class ComputeMethod {
    const hasBitwiseShifting: bool
    /** The cost estimate; nothing below depends on what it is. */
    const gasNeeded: seq<Item> -> int
    /** Bounds the search. */
    var maxSteps: nat
    var routine: seq<Item>

    constructor (value: Word, hasShifts: bool, gas: seq<Item> -> int, steps: nat)
      ensures hasBitwiseShifting == hasShifts && PushesValue(routine, value, hasShifts)
    {
      hasBitwiseShifting, gasNeeded, maxSteps, routine := hasShifts, gas, steps, [];
      new;
      routine := FindRepresentation(value);
      var ok := CheckRepresentation(value, routine, hasShifts);
      CheckSucceeds(routine, value, hasShifts);
      assert ok;
    }

    /** Code for a value, found by negation or by splitting off a power of two. */
    method FindRepresentation(value: Word) returns (best: seq<Item>)
      modifies this`maxSteps
      ensures PushesValue(best, value, hasBitwiseShifting)
      decreases value
    {
      hide PushesValue, BytesRequired;
      LiteralPushes(value, hasBitwiseShifting);
      if value < 0x10000 { return [PushWord(value)]; }
      if BytesRequired(Not(value)) < BytesRequired(value) {
        if Not(value) >= value { BytesMonotone(value, Not(value)); }
        best := FindRepresentation(Not(value));
        NegatedPushes(best, Not(value), hasBitwiseShifting);
        best := best + [Operation(NOT)];
        return;
      }
      best := [PushWord(value)];
      var bestGas := gasNeeded(best);
      var bits := 255;
      while bits > 8 && maxSteps > 0
        invariant 8 <= bits <= 255 && PushesValue(best, value, hasBitwiseShifting)
        decreases bits
      {
        var gapDetector := ShiftDown(value, bits - 8) % 0x200;
        var split := SplitAt(value, bits);
        if (gapDetector == 0xff || gapDetector == 0x100) && Useful(split, bits) {
          var candidate := Combine(value, bits);
          if maxSteps > 0 { maxSteps := maxSteps - 1; }
          var newGas := gasNeeded(candidate);
          if newGas < bestGas { bestGas, best := newGas, candidate; }
        }
        bits := bits - 1;
      }
    }

    /** Code that computes a value from the parts of a split. */
    method Combine(value: Word, bits: nat) returns (candidate: seq<Item>)
      requires 9 <= bits <= 255 && Useful(SplitAt(value, bits), bits)
      modifies this`maxSteps
      ensures PushesValue(candidate, value, hasBitwiseShifting)
      decreases value, 0
    {
      var s := SplitAt(value, bits);
      PartsAreSmaller(value, bits);
      SplitValue(value, bits);
      PowerPushes(bits, hasBitwiseShifting);
      hide PushesValue, SplitAt, Pow2, Mul, Add, Sub;
      var lower: seq<Item> := [];
      if s.lower != 0 { lower := FindRepresentation(AbsInt(s.lower)); }
      var upper := PowerRoutine(bits, hasBitwiseShifting);
      ghost var x: Word := Pow2(bits);
      if s.upper != 1 {
        var factor := FindRepresentation(s.upper);
        BinaryPushes(upper, factor, MUL, s.upper, Pow2(bits), Mul(s.upper, Pow2(bits)), hasBitwiseShifting);
        upper := upper + factor + [Operation(MUL)];
        x := Mul(s.upper, Pow2(bits));
      }
      if s.lower > 0 {
        BinaryPushes(lower, upper, ADD, x, s.lower, value, hasBitwiseShifting);
        candidate := lower + upper + [Operation(ADD)];
      } else if s.lower < 0 {
        BinaryPushes(lower, upper, SUB, x, -s.lower, value, hasBitwiseShifting);
        candidate := lower + upper + [Operation(SUB)];
      } else {
        candidate := lower + upper;
        assert candidate == upper;
      }
    }
  }

  /** The check never fails on a routine that pushes the value. */
  lemma {:induction false} CheckSucceeds(routine: seq<Item>, value: Word, hasShifts: bool)
    requires PushesValue(routine, value, hasShifts)
    ensures TinyRun(routine, [], hasShifts) == Some([value])
  {
    assert [] + [value] == [value];
  }
}
