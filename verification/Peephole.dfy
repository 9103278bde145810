/** The peephole optimiser: local rewriting of short windows. */
module Peephole {
  import opened Words
  import opened Instructions
  import opened Arithmetic
  import opened Laws
  import opened Items
  import opened Machine
  import opened Rules
  import opened Knowledge
  import opened Steps
  import opened Segments
  import opened Pieces

  // ----- the rules: what replaces a window, if anything -----

  function PushPop(push: Item, pop: Item): Option<seq<Item>> {
    if pop == Operation(POP) && (IsDupItem(push) || (push.Data? && push.kind != Tag && push.kind != PushDeployTimeAddress))
    then Some([]) else None
  }

  function OpPop(op: Item, pop: Item): Option<seq<Item>> {
    if pop == Operation(POP) && op.Operation? && InfoOf(op.op).ret == 1 && !InfoOf(op.op).sideEffects
    then Some(Pops(InfoOf(op.op).args)) else None
  }

  function DoublePush(a: Item, b: Item): Option<seq<Item>> {
    if IsPushWord(a) && IsPushWord(b) && a.data == b.data then Some([a, Operation(DUP1)]) else None
  }

  function DoubleSwap(a: Item, b: Item): Option<seq<Item>> {
    if a == b && IsSwapItem(a) then Some([]) else None
  }

  function CommutativeSwap(swap: Item, op: Item): Option<seq<Item>> {
    if swap == Operation(SWAP1) && IsCommutativeItem(op) then Some([op]) else None
  }

  predicate IsComparison(op: Opcode) { op == LT || op == GT || op == SLT || op == SGT }

  function Mirrored(op: Opcode): Opcode
    requires IsComparison(op)
  {
    if op == LT then GT else if op == GT then LT else if op == SLT then SGT else SLT
  }

  function SwapComparison(swap: Item, op: Item): Option<seq<Item>> {
    if swap == Operation(SWAP1) && op.Operation? && IsComparison(op.op) then Some([Operation(Mirrored(op.op))]) else None
  }

  function IsZeroIsZeroJumpI(a: Item, b: Item, tag: Item, jumpi: Item): Option<seq<Item>> {
    if a == Operation(ISZERO) && b == Operation(ISZERO) && IsPushTag(tag) && jumpi == Operation(JUMPI) then Some([tag, jumpi]) else None
  }

  function JumpToNext(push: Item, jump: Item, tag: Item): Option<seq<Item>> {
    if IsPushTag(push) && (jump == Operation(JUMP) || jump == Operation(JUMPI)) && IsTag(tag) && push.data == tag.data
    then Some(if jump == Operation(JUMPI) then [Operation(POP), tag] else [tag]) else None
  }

  const LOW_WORD: Word := 0xFFFF_FFFF

  function TagConjunctions(tag: Item, mask: Item, and: Item): Option<seq<Item>> {
    if IsPushTag(tag) && and == Operation(AND) && IsPushWord(mask) && And(mask.data, LOW_WORD) == LOW_WORD then Some([tag]) else None
  }

  function TruthyAnd(push: Item, not: Item, and: Item): Option<seq<Item>> {
    if IsPushWord(push) && push.data == 0 && not == Operation(NOT) && and == Operation(AND) then Some([]) else None
  }

  predicate EndsFlow(item: Item) {
    item.Operation? && (item.op == JUMP || item.op == RETURN || item.op == STOP || item.op == INVALID || item.op == SELFDESTRUCT || item.op == REVERT)
  }

  // ----- each rule keeps the behaviour of its window -----

  lemma {:induction false} Unroll1(env: Env, a: Item, s: State)
    ensures RunSegment(env, [a], s) == StepItem(env, a, s)
  {
    hide StepItem;
    RunSegmentSnoc(env, [], a, s);
    assert [] + [a] == [a];
  }

  lemma {:induction false} Unroll2(env: Env, a: Item, b: Item, s: State)
    ensures RunSegment(env, [a, b], s) == var f := StepItem(env, a, s); if f.Next? then StepItem(env, b, f.state) else f
  {
    hide StepItem;
    Unroll1(env, a, s);
    RunSegmentSnoc(env, [a], b, s);
    assert [a] + [b] == [a, b];
  }

  lemma {:induction false} Unroll3(env: Env, a: Item, b: Item, c: Item, s: State)
    ensures RunSegment(env, [a, b, c], s) == var f := RunSegment(env, [a, b], s); if f.Next? then StepItem(env, c, f.state) else f
  {
    hide StepItem;
    RunSegmentSnoc(env, [a, b], c, s);
    assert [a, b] + [c] == [a, b, c];
  }

  lemma {:induction false} Unroll4(env: Env, a: Item, b: Item, c: Item, d: Item, s: State)
    ensures RunSegment(env, [a, b, c, d], s) == var f := RunSegment(env, [a, b], s); if f.Next? then RunSegment(env, [c, d], f.state) else f
  {
    hide StepItem;
    RunSegmentConcat(env, [a, b], [c, d], s);
    assert [a, b] + [c, d] == [a, b, c, d];
  }

  lemma {:induction false} PushPopRefines(env: Env, push: Item, pop: Item)
    requires PushPop(push, pop).Some?
    ensures Refines(env, None, [push, pop], [])
  {
    hide NumericState;
    forall s | NumericState(s)
      ensures RunSegment(env, [push, pop], s).Stuck? || RunSegment(env, [], s) == RunSegment(env, [push, pop], s)
    {
      Unroll2(env, push, pop, s);
      PushThenPop(env, push, s);
    }
  }

  lemma {:induction false} PushThenPop(env: Env, push: Item, s: State)
    requires PushPop(push, Operation(POP)).Some?
    ensures var f := StepItem(env, push, s); f.Stuck? || (f.Next? && StepItem(env, Operation(POP), f.state) == Next(s))
  {
    if push.Data? {
      var v := PushedValue(env, push.kind, push.data);
      assert (s.stack + [v])[..|s.stack|] == s.stack;
    } else if InfoOf(push.op).args <= |s.stack| {
      var v := s.stack[|s.stack| - (push.op - DUP1 + 1)];
      assert (s.stack + [v])[..|s.stack|] == s.stack;
    }
  }

  lemma {:induction false} PopsRun(env: Env, n: nat, s: State)
    requires n <= |s.stack|
    ensures RunSegment(env, Pops(n), s) == Next(State(s.stack[..|s.stack| - n], s.world))
    decreases n
  {
    if n == 0 {
      assert s.stack[..|s.stack|] == s.stack;
    } else {
      PopsRun(env, n - 1, s);
      assert Pops(n)[..n - 1] == Pops(n - 1);
      assert s.stack[..|s.stack| - (n - 1)][..|s.stack| - n] == s.stack[..|s.stack| - n];
    }
  }

  lemma {:induction false} OpPopRefines(env: Env, op: Item, pop: Item)
    requires OpPop(op, pop).Some?
    ensures Refines(env, None, [op, pop], OpPop(op, pop).value)
  {
    hide NumericState, StepItem;
    forall s | NumericState(s)
      ensures RunSegment(env, [op, pop], s).Stuck? || RunSegment(env, OpPop(op, pop).value, s) == RunSegment(env, [op, pop], s)
    {
      Unroll2(env, op, pop, s);
      OpThenPop(env, op.op, s);
      if !StepItem(env, op, s).Stuck? { PopsRun(env, InfoOf(op.op).args, s); }
    }
  }

  /** An operation without side effects whose result is dropped only drops its operands. */
  lemma {:induction false} OpThenPop(env: Env, op: Opcode, s: State)
    requires InfoOf(op).ret == 1 && !InfoOf(op).sideEffects
    ensures var f := StepItem(env, Operation(op), s);
            f.Stuck? || (f.Next? && InfoOf(op).args <= |s.stack|
                         && StepItem(env, Operation(POP), f.state) == Next(State(s.stack[..|s.stack| - InfoOf(op).args], s.world)))
  {
    var f := StepItem(env, Operation(op), s);
    if !f.Stuck? {
      OneResult(env, op, s);
      var n := |s.stack| - InfoOf(op).args;
      assert f.state.stack[..n] == s.stack[..n];
    }
  }

  lemma {:induction false} OneResult(env: Env, op: Opcode, s: State)
    requires InfoOf(op).ret == 1 && !InfoOf(op).sideEffects && !StepItem(env, Operation(op), s).Stuck?
    ensures InfoOf(op).args <= |s.stack|
    ensures var f := StepItem(env, Operation(op), s); var n := |s.stack| - InfoOf(op).args;
            f.Next? && f.state.world == s.world && |f.state.stack| == n + 1 && f.state.stack[..n] == s.stack[..n]
  {
    hide ReadWord, WriteWord, PatchWorld;
  }

  lemma {:induction false} DoublePushRefines(env: Env, a: Item, b: Item)
    requires DoublePush(a, b).Some?
    ensures Refines(env, None, [a, b], [a, Operation(DUP1)])
  {
    hide NumericState;
    forall s | NumericState(s) ensures RunSegment(env, [a, Operation(DUP1)], s) == RunSegment(env, [a, b], s) {
      Unroll2(env, a, b, s);
      Unroll2(env, a, Operation(DUP1), s);
    }
  }

  lemma {:induction false} DoubleSwapRefines(env: Env, a: Item, b: Item)
    requires DoubleSwap(a, b).Some?
    ensures Refines(env, None, [a, b], [])
  {
    hide NumericState;
    forall s | NumericState(s)
      ensures RunSegment(env, [a, b], s).Stuck? || RunSegment(env, [], s) == RunSegment(env, [a, b], s)
    {
      Unroll2(env, a, b, s);
      SwapTwice(env, a.op, s);
    }
  }

  lemma {:induction false} SwapTwice(env: Env, op: Opcode, s: State)
    requires IsSwap(op)
    ensures var f := StepItem(env, Operation(op), s);
            f.Stuck? || (f.Next? && StepItem(env, Operation(op), f.state) == Next(s))
  {
    var n := op - SWAP1 + 1;
    if InfoOf(op).args <= |s.stack| {
      assert Swapped(Swapped(s.stack, n), n) == s.stack;
    }
  }

  /** A binary arithmetic instruction on numbers. */
  lemma {:induction false} BinaryStep(env: Env, op: Opcode, s: State, x: Word, y: Word)
    requires EvmArithmetic(env) && IsArithmetic(op) && InfoOf(op).args == 2
    requires |s.stack| >= 2 && s.stack[|s.stack| - 1] == Num(x) && s.stack[|s.stack| - 2] == Num(y)
    ensures StepItem(env, Operation(op), s) == Next(State(s.stack[..|s.stack| - 2] + [Num(Arith2(op, x, y))], s.world))
  {
    hide EvmArithmetic, Arith2;
    BinaryValue(env, op, x, y, s.world.trace);
    assert NumsOf(Top(s.stack, 2)) == [x, y];
  }

  lemma {:induction false} BinaryValue(env: Env, op: Opcode, x: Word, y: Word, t: seq<Event>)
    requires EvmArithmetic(env) && IsArithmetic(op) && InfoOf(op).args == 2
    ensures env.apply(op, [x, y], t) == Arith2(op, x, y)
  {
    hide Arith2;
    assert env.apply(op, [x, y], t) == Arith(op, [x, y]);
  }

  lemma {:induction false} UnaryStep(env: Env, op: Opcode, s: State, x: Word)
    requires EvmArithmetic(env) && (op == ISZERO || op == NOT) && |s.stack| >= 1 && s.stack[|s.stack| - 1] == Num(x)
    ensures StepItem(env, Operation(op), s) == Next(State(s.stack[..|s.stack| - 1] + [Num(Arith1(op, x))], s.world))
  {
    hide Arith1;
    assert env.apply(op, [x], s.world.trace) == Arith(op, [x]);
    assert NumsOf(Top(s.stack, 1)) == [x];
  }

  /** Without enough operands an arithmetic instruction is stuck. */
  lemma {:induction false} ShortStack(env: Env, op: Opcode, s: State)
    requires |s.stack| < InfoOf(op).args
    ensures StepItem(env, Operation(op), s).Stuck?
  {
  }

  lemma {:induction false} SwapStep(env: Env, s: State)
    requires |s.stack| >= 2
    ensures var n := |s.stack|;
            StepItem(env, Operation(SWAP1), s) == Next(State(s.stack[..n - 2] + [s.stack[n - 1], s.stack[n - 2]], s.world))
  {
    var n := |s.stack|;
    assert Swapped(s.stack, 1) == s.stack[..n - 2] + [s.stack[n - 1], s.stack[n - 2]];
  }

  /** Exchanging the operands of an instruction with a mirror image. */
  lemma {:induction false} SwappedBinary(env: Env, op: Opcode, mirror: Opcode, s: State)
    requires EvmArithmetic(env) && NumericState(s) && IsArithmetic(op) && InfoOf(op).args == 2 && IsArithmetic(mirror)
    requires InfoOf(mirror).args == 2
    requires forall x: Word, y: Word :: Arith2(op, x, y) == Arith2(mirror, y, x)
    ensures RunSegment(env, [Operation(SWAP1), Operation(op)], s).Stuck?
            || RunSegment(env, [Operation(mirror)], s) == RunSegment(env, [Operation(SWAP1), Operation(op)], s)
  {
    hide EvmArithmetic, Arith2, StepItem, IsArithmetic, NumericWorld;
    Unroll2(env, Operation(SWAP1), Operation(op), s);
    Unroll1(env, Operation(mirror), s);
    var n := |s.stack|;
    if n < 2 {
      ShortStack(env, SWAP1, s);
    } else {
      var x, y := s.stack[n - 1].word, s.stack[n - 2].word;
      SwapStep(env, s);
      var s1 := State(s.stack[..n - 2] + [s.stack[n - 1], s.stack[n - 2]], s.world);
      BinaryStep(env, op, s1, y, x);
      BinaryStep(env, mirror, s, x, y);
      assert s1.stack[..n - 2] == s.stack[..n - 2];
    }
  }

  lemma {:induction false} CommutativeSwapRefines(env: Env, swap: Item, op: Item)
    requires LinkedEnv(env) && CommutativeSwap(swap, op).Some?
    ensures Refines(env, None, [swap, op], [op])
  {
    CommutativeIsBinary(op.op);
    hide NumericState, RunSegment, LinkedEnv, EvmArithmetic, Arith2, IsCommutative, IsArithmetic, InfoOf;
    LinkedArithmetic(env);
    forall x: Word, y: Word ensures Arith2(op.op, x, y) == Arith2(op.op, y, x) { CommutativeOps(op.op, x, y); }
    forall s | NumericState(s)
      ensures RunSegment(env, [swap, op], s).Stuck? || RunSegment(env, [op], s) == RunSegment(env, [swap, op], s)
    {
      SwappedBinary(env, op.op, op.op, s);
    }
  }

  lemma {:induction false} CommutativeIsBinary(op: Opcode)
    ensures IsCommutative(op) ==> IsArithmetic(op) && InfoOf(op).args == 2
    ensures IsComparison(op) ==> IsArithmetic(op) && InfoOf(op).args == 2
  {
  }

  lemma {:induction false} LinkedArithmetic(env: Env)
    requires LinkedEnv(env)
    ensures EvmArithmetic(env)
  {
  }

  lemma {:induction false} SwapComparisonRefines(env: Env, swap: Item, op: Item)
    requires LinkedEnv(env) && SwapComparison(swap, op).Some?
    ensures Refines(env, None, [swap, op], [Operation(Mirrored(op.op))])
  {
    var mirror := Mirrored(op.op);
    CommutativeIsBinary(op.op);
    CommutativeIsBinary(mirror);
    forall x: Word, y: Word ensures Arith2(op.op, x, y) == Arith2(mirror, y, x) { }
    hide NumericState, RunSegment, LinkedEnv, EvmArithmetic, Arith2, IsComparison, IsArithmetic, InfoOf;
    LinkedArithmetic(env);
    forall s | NumericState(s)
      ensures RunSegment(env, [swap, op], s).Stuck? || RunSegment(env, [Operation(mirror)], s) == RunSegment(env, [swap, op], s)
    {
      SwappedBinary(env, op.op, mirror, s);
    }
  }

  lemma {:induction false} IsZeroIsZeroJumpIRefines(env: Env, a: Item, b: Item, tag: Item, jumpi: Item)
    requires LinkedEnv(env) && IsZeroIsZeroJumpI(a, b, tag, jumpi).Some?
    ensures Refines(env, None, [a, b, tag, jumpi], [tag, jumpi])
  {
    hide NumericState, RunSegment, LinkedEnv;
    forall s | NumericState(s)
      ensures RunSegment(env, [a, b, tag, jumpi], s).Stuck? || RunSegment(env, [tag, jumpi], s) == RunSegment(env, [a, b, tag, jumpi], s)
    {
      Unroll4(env, a, b, tag, jumpi, s);
      DoubleNegation(env, s);
      if |s.stack| >= 1 { JumpOnEither(env, tag, s, NegatedTwice(s)); }
    }
  }

  ghost function NegatedTwice(s: State): State
    requires |s.stack| >= 1
  {
    var top := s.stack[|s.stack| - 1];
    State(s.stack[..|s.stack| - 1] + [Num(if top == Num(0) then 0 else 1)], s.world)
  }

  lemma {:induction false} DoubleNegation(env: Env, s: State)
    requires LinkedEnv(env) && NumericState(s)
    ensures if |s.stack| < 1 then RunSegment(env, [Operation(ISZERO), Operation(ISZERO)], s).Stuck?
            else RunSegment(env, [Operation(ISZERO), Operation(ISZERO)], s) == Next(NegatedTwice(s))
  {
    hide LinkedEnv, EvmArithmetic, StepItem, NumericWorld;
    LinkedArithmetic(env);
    Unroll2(env, Operation(ISZERO), Operation(ISZERO), s);
    var n := |s.stack|;
    if n < 1 {
      ShortStack(env, ISZERO, s);
    } else {
      var x := s.stack[n - 1].word;
      UnaryStep(env, ISZERO, s, x);
      var s1 := State(s.stack[..n - 1] + [Num(Arith1(ISZERO, x))], s.world);
      UnaryStep(env, ISZERO, s1, Arith1(ISZERO, x));
      assert s1.stack[..n - 1] == s.stack[..n - 1];
    }
  }

  /** A conditional jump only asks whether its condition is zero. */
  lemma {:induction false} JumpOnEither(env: Env, tag: Item, s: State, s': State)
    requires IsPushTag(tag) && |s.stack| >= 1 && s' == NegatedTwice(s)
    ensures RunSegment(env, [tag, Operation(JUMPI)], s') == RunSegment(env, [tag, Operation(JUMPI)], s)
  {
    Unroll2(env, tag, Operation(JUMPI), s);
    Unroll2(env, tag, Operation(JUMPI), s');
    var n := |s.stack|;
    assert (s.stack + [env.tag(tag.data)])[..n - 1] == s.stack[..n - 1] == (s'.stack + [env.tag(tag.data)])[..n - 1];
  }

  lemma {:induction false} JumpToNextRefines(env: Env, push: Item, jump: Item, tag: Item)
    requires JumpToNext(push, jump, tag).Some?
    ensures Refines(env, Some(tag.data), [push, jump], if jump == Operation(JUMPI) then [Operation(POP)] else [])
  {
    hide NumericState;
    forall s | NumericState(s)
      ensures RunSegment(env, [push, jump], s).Stuck? ||
              FlowMatches(env, Some(tag.data), RunSegment(env, [push, jump], s), RunSegment(env, if jump == Operation(JUMPI) then [Operation(POP)] else [], s))
    {
      Unroll2(env, push, jump, s);
      Unroll1(env, Operation(POP), s);
      var n := |s.stack|;
      var v := env.tag(push.data);
      assert (s.stack + [v])[..n] == s.stack;
      if n > 0 { assert (s.stack + [v])[..n - 1] == s.stack[..n - 1]; }
    }
  }

  /** A mask that covers the low 32 bits does not change a 32-bit number. */
  lemma {:induction false} MaskedTag(mask: Word, t: Word)
    requires And(mask, LOW_WORD) == LOW_WORD && t < 0x1_0000_0000
    ensures And(mask, t) == t
  {
    assert Pow2(32) == 0x1_0000_0000 by { assert Pow2(8) == 256; Pow2Sum(8, 8); Pow2Sum(16, 16); }
    forall i: nat | i < 256 ensures Bit(And(mask, t), i) == Bit(t, i) {
      BitAnd(mask, t, i);
      BitAnd(mask, LOW_WORD, i);
      if i < 32 { BitOfPow2Minus1(32, i); } else { NoHighBit(t, 32, i); }
    }
    WordsByBits(And(mask, t), t);
  }

  lemma {:induction false} TagConjunctionsRefines(env: Env, tag: Item, mask: Item, and: Item)
    requires LinkedEnv(env) && ShortTags(env) && TagConjunctions(tag, mask, and).Some?
    ensures Refines(env, None, [tag, mask, and], [tag])
  {
    hide NumericState, LinkedEnv, EvmArithmetic, StepItem, RunSegment;
    LinkedArithmetic(env);
    forall s | NumericState(s) ensures RunSegment(env, [tag], s) == RunSegment(env, [tag, mask, and], s) {
      var t, n := env.tag(tag.data).word, |s.stack|;
      var s1 := State(s.stack + [Num(t)], s.world);
      var s2 := State(s1.stack + [Num(mask.data)], s.world);
      PushStep(env, tag, s);
      PushStep(env, mask, s1);
      Unroll1(env, tag, s);
      Unroll2(env, tag, mask, s);
      Unroll3(env, tag, mask, and, s);
      AndStep(env, s2, mask.data, t);
      MaskedTag(mask.data, t);
      assert s2.stack[..n] + [Num(t)] == s1.stack;
    }
  }

  lemma {:induction false} AndStep(env: Env, s: State, x: Word, y: Word)
    requires EvmArithmetic(env) && |s.stack| >= 2 && s.stack[|s.stack| - 1] == Num(x)
    requires s.stack[|s.stack| - 2] == Num(y)
    ensures StepItem(env, Operation(AND), s) == Next(State(s.stack[..|s.stack| - 2] + [Num(And(x, y))], s.world))
  {
    hide EvmArithmetic, StepItem;
    BinaryStep(env, AND, s, x, y);
  }

  lemma {:induction false} PushStep(env: Env, item: Item, s: State)
    requires item.Data? && item.kind != Tag
    ensures StepItem(env, item, s) == Next(State(s.stack + [PushedValue(env, item.kind, item.data)], s.world))
  {
  }

  lemma {:induction false} TruthyAndRefines(env: Env, push: Item, not: Item, and: Item)
    requires LinkedEnv(env) && TruthyAnd(push, not, and).Some?
    ensures Refines(env, None, [push, not, and], [])
  {
    hide LinkedEnv, EvmArithmetic, StepItem, RunSegment, NumericWorld;
    LinkedArithmetic(env);
    forall s | NumericState(s)
      ensures RunSegment(env, [push, not, and], s).Stuck? || RunSegment(env, [], s) == RunSegment(env, [push, not, and], s)
    {
      var n := |s.stack|;
      var s1, s2 := State(s.stack + [Num(0)], s.world), State(s.stack + [Num(MAX_WORD)], s.world);
      PushStep(env, push, s);
      UnaryStep(env, NOT, s1, 0);
      assert s1.stack[..n] + [Num(MAX_WORD)] == s2.stack;
      Unroll2(env, push, not, s);
      Unroll3(env, push, not, and, s);
      EmptySegment(env, s);
      if n < 1 {
        ShortStack(env, AND, s2);
      } else {
        var x := s.stack[n - 1].word;
        AndStep(env, s2, MAX_WORD, x);
        AllOnesAnd(x);
        assert s2.stack[..n - 1] + [Num(x)] == s.stack;
      }
    }
  }

  lemma {:induction false} EmptySegment(env: Env, s: State)
    ensures RunSegment(env, [], s) == Next(s)
  {
  }

  lemma {:induction false} AllOnesAnd(x: Word)
    ensures And(MAX_WORD, x) == x
  {
    forall i: nat | i < 256 ensures Bit(And(MAX_WORD, x), i) == Bit(x, i) {
      BitAnd(MAX_WORD, x, i);
      BitOfMax(i);
    }
    WordsByBits(And(MAX_WORD, x), x);
  }

  /** Nothing after the end of the flow is ever run. */
  lemma {:induction false} UnreachableRefines(env: Env, items: seq<Item>)
    requires |items| > 0 && EndsFlow(items[0])
    ensures Refines(env, None, items, [items[0]])
  {
    hide NumericState, RunSegment;
    assert items == [items[0]] + items[1..];
    forall s | NumericState(s) ensures RunSegment(env, [items[0]], s) == RunSegment(env, items, s) {
      RunSegmentConcat(env, [items[0]], items[1..], s);
      Unroll1(env, items[0], s);
      NoNext(env, items[0], s);
    }
  }

  lemma {:induction false} NoNext(env: Env, item: Item, s: State)
    requires EndsFlow(item)
    ensures !StepItem(env, item, s).Next?
  {
  }
}
