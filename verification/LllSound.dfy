/** Compiled LLL code computes the meaning of its tree. */
module LllSound {
  import opened Words
  import opened Instructions
  import opened Items
  import opened Machine
  import opened Segments
  import opened Peephole
  import opened Lll
  import opened LllMeaning

  // ----- code inside a program -----

  predicate CodeAt(p: seq<Item>, pc: nat, items: seq<Item>) { pc + |items| <= |p| && p[pc..pc + |items|] == items }

  lemma {:induction false} CodeAtSplit(p: seq<Item>, pc: nat, a: seq<Item>, b: seq<Item>)
    requires CodeAt(p, pc, a + b)
    ensures CodeAt(p, pc, a) && CodeAt(p, pc + |a|, b)
  {
    assert p[pc..pc + |a + b|][..|a|] == a && p[pc..pc + |a + b|][|a|..] == b;
  }

  lemma {:induction false} ItemAt(p: seq<Item>, pc: nat, items: seq<Item>, i: nat)
    requires CodeAt(p, pc, items) && i < |items|
    ensures pc + i < |p| && p[pc + i] == items[i]
  {
    assert p[pc..pc + |items|][i] == items[i];
  }

  lemma {:induction false} ShiftConcat(a: seq<Item>, b: seq<Item>, n: nat)
    ensures Shift(a + b, n) == Shift(a, n) + Shift(b, n)
  {
  }

  lemma {:induction false} WrapTwice(x: nat, m: nat, n: nat)
    ensures ((x + m) % MODULUS + n) % MODULUS == (x + m + n) % MODULUS
  {
  }

  lemma {:induction false} ShiftTwice(a: seq<Item>, m: nat, n: nat)
    ensures Shift(Shift(a, m), n) == Shift(a, m + n)
  {
    forall i | 0 <= i < |a| ensures ShiftItem(ShiftItem(a[i], m), n) == ShiftItem(a[i], m + n) {
      if IsTag(a[i]) || IsPushTag(a[i]) { WrapTwice(a[i].data, m, n); }
    }
  }

  /** A fragment, renumbered by n, lies at a position. */
  predicate Placed(p: seq<Item>, pc: nat, c: Code, n: nat) { CodeAt(p, pc, Shift(c.items, n)) }

  // ----- running -----

  ghost predicate Ready(env: Env, p: seq<Item>) { EvmArithmetic(env) && UniqueTags(p) && DistinctTags(env, p) }

  ghost predicate Reaches(env: Env, p: seq<Item>, pc: nat, s: State, pc': nat, s': State) {
    forall o :: HaltsWith(env, p, pc', s', o) ==> HaltsWith(env, p, pc, s, o)
  }

  lemma {:induction false} ReachesItself(env: Env, p: seq<Item>, pc: nat, s: State)
    ensures Reaches(env, p, pc, s, pc, s)
  {
  }

  lemma {:induction false} ReachesOn(env: Env, p: seq<Item>, a: nat, s: State, b: nat, s': State, c: nat, s'': State)
    requires Reaches(env, p, a, s, b, s') && Reaches(env, p, b, s', c, s'')
    ensures Reaches(env, p, a, s, c, s'')
  {
    hide HaltsWith;
  }

  lemma {:induction false} ReachesHalt(env: Env, p: seq<Item>, a: nat, s: State, b: nat, s': State, o: Outcome)
    requires Reaches(env, p, a, s, b, s') && HaltsWith(env, p, b, s', o)
    ensures HaltsWith(env, p, a, s, o)
  {
    hide HaltsWith;
  }

  lemma {:induction false} ItemReaches(env: Env, p: seq<Item>, pc: nat, s: State, s': State)
    requires pc < |p| && StepItem(env, p[pc], s) == Next(s')
    ensures Reaches(env, p, pc, s, pc + 1, s')
  {
    hide HaltsWith, StepItem;
    forall o | HaltsWith(env, p, pc + 1, s', o)
      ensures HaltsWith(env, p, pc, s, o)
    { OneStep(env, p, pc, s, pc + 1, s', o); }
  }

  lemma {:induction false} ItemHalts(env: Env, p: seq<Item>, pc: nat, s: State, o: Outcome)
    requires pc < |p| && StepItem(env, p[pc], s) == Halt(o)
    ensures HaltsWith(env, p, pc, s, o)
  {
    hide HaltsWith, StepItem;
    LastStep(env, p, pc, s, o);
  }

  lemma {:induction false} TagReaches(env: Env, p: seq<Item>, pc: nat, s: State)
    requires pc < |p| && IsTag(p[pc])
    ensures Reaches(env, p, pc, s, pc + 1, s)
  {
    hide HaltsWith;
    ItemReaches(env, p, pc, s, s);
  }

  /** Pushing a tag and jumping to it. */
  lemma {:induction false} JumpReaches(env: Env, p: seq<Item>, pc: nat, t: Word, s: State, k: nat)
    requires Ready(env, p) && pc + 1 < |p| && p[pc] == PushTagItem(t) && p[pc + 1] == Operation(JUMP) && k < |p|
    requires p[k] == TagItem(t)
    ensures Reaches(env, p, pc, s, k + 1, s)
  {
    hide HaltsWith, UniqueTags, DistinctTags, EvmArithmetic;
    var s1 := State(s.stack + [env.tag(t)], s.world);
    PushStep(env, p[pc], s);
    ItemReaches(env, p, pc, s, s1);
    JumpTop(env, s1);
    assert s1.stack[..|s.stack|] == s.stack;
    JumpTo(env, p, pc + 1, s1, k, s);
    ReachesOn(env, p, pc, s, pc + 1, s1, k, s);
    TagReaches(env, p, k, s);
    ReachesOn(env, p, pc, s, k, s, k + 1, s);
  }

  lemma {:induction false} JumpTop(env: Env, s: State)
    requires |s.stack| >= 1
    ensures StepItem(env, Operation(JUMP), s) == Jump(s.stack[|s.stack| - 1], State(s.stack[..|s.stack| - 1], s.world))
  {
  }

  lemma {:induction false} JumpTo(env: Env, p: seq<Item>, pc: nat, s: State, k: nat, s': State)
    requires UniqueTags(p) && DistinctTags(env, p) && pc < |p| && k < |p| && IsTag(p[k])
    requires StepItem(env, p[pc], s) == Jump(env.tag(p[k].data), s')
    ensures Reaches(env, p, pc, s, k, s')
  {
    hide HaltsWith, StepItem, UniqueTags, DistinctTags;
    JumpLands(env, p, pc, s, k);
    forall o | HaltsWith(env, p, k, s', o) ensures HaltsWith(env, p, pc, s, o) { OneStep(env, p, pc, s, k, s', o); }
  }

  /** A conditional jump, taken or not. */
  lemma {:induction false} JumpIReaches(env: Env, p: seq<Item>, pc: nat, t: Word, base: seq<Value>, x: Word, w: World,
      k: nat)
    requires Ready(env, p) && pc + 1 < |p| && p[pc] == PushTagItem(t) && p[pc + 1] == Operation(JUMPI) && k < |p|
    requires p[k] == TagItem(t)
    ensures Reaches(env, p, pc, State(base + [Num(x)], w), if x != 0 then k + 1 else pc + 2, State(base, w))
  {
    hide HaltsWith, UniqueTags, DistinctTags, EvmArithmetic;
    var s, s', s1 := State(base + [Num(x)], w), State(base, w), State(base + [Num(x)] + [env.tag(t)], w);
    PushStep(env, p[pc], s);
    ItemReaches(env, p, pc, s, s1);
    JumpITop(env, base, x, env.tag(t), w);
    if x != 0 {
      JumpTo(env, p, pc + 1, s1, k, s');
      ReachesOn(env, p, pc, s, pc + 1, s1, k, s');
      TagReaches(env, p, k, s');
      ReachesOn(env, p, pc, s, k, s', k + 1, s');
    } else {
      ItemReaches(env, p, pc + 1, s1, s');
      ReachesOn(env, p, pc, s, pc + 1, s1, pc + 2, s');
    }
  }

  lemma {:induction false} JumpITop(env: Env, base: seq<Value>, x: Word, to: Value, w: World)
    ensures StepItem(env, Operation(JUMPI), State(base + [Num(x)] + [to], w)) == if x != 0 then Jump(to, State(base, w)) else Next(State(base, w))
  {
    var stack := base + [Num(x)] + [to];
    assert stack[..|base|] == base;
  }

  lemma {:induction false} PopsReach(env: Env, p: seq<Item>, pc: nat, n: nat, base: seq<Value>, values: seq<Value>,
      w: World)
    requires CodeAt(p, pc, Pops(n)) && n <= |values|
    ensures Reaches(env, p, pc, State(base + values, w), pc + n, State(base + values[..|values| - n], w))
    decreases n
  {
    hide HaltsWith;
    if n == 0 {
      assert values[..|values|] == values;
    } else {
      var s, less := State(base + values, w), values[..|values| - 1];
      ItemAt(p, pc, Pops(n), 0);
      PopTop(env, base, values, w);
      ItemReaches(env, p, pc, s, State(base + less, w));
      assert Pops(n) == [Operation(POP)] + Pops(n - 1);
      CodeAtSplit(p, pc, [Operation(POP)], Pops(n - 1));
      PopsReach(env, p, pc + 1, n - 1, base, less, w);
      assert less[..|less| - (n - 1)] == values[..|values| - n];
      ReachesOn(env, p, pc, s, pc + 1, State(base + less, w), pc + n, State(base + values[..|values| - n], w));
    }
  }

  lemma {:induction false} PopTop(env: Env, base: seq<Value>, values: seq<Value>, w: World)
    requires |values| > 0
    ensures StepItem(env, Operation(POP), State(base + values, w)) == Next(State(base + values[..|values| - 1], w))
  {
    assert (base + values)[..|base + values| - 1] == base + values[..|values| - 1];
  }

  // ----- instructions do not see what lies below their operands -----

  lemma {:induction false} ApplyBelow(env: Env, op: Opcode, base: seq<Value>, values: seq<Value>, w: World)
    requires ValidFunctional(op) && |values| == InfoOf(op).args
    ensures var f, g := StepItem(env, Operation(op), State(values, w)), StepItem(env, Operation(op), State(base + values, w));
            && (f.Next? ==> g == Next(State(base + f.state.stack, f.state.world)))
            && (f.Halt? ==> g == f)
  {
    var n := |values|;
    assert Top(base + values, n) == Top(values, n);
    assert (base + values)[..|base|] == base && values[..0] == [];
    if AltersControlFlow(op) {
      ControlBelow(env, op, base, values, w);
    } else if op == POP {
      assert (base + values)[..|base + values| - 1] == base + values[..n - 1];
    } else {
      PerformBelow(env, op, Top(values, n), base, w);
    }
  }

  lemma {:induction false} ControlBelow(env: Env, op: Opcode, base: seq<Value>, values: seq<Value>, w: World)
    requires AltersControlFlow(op) && |values| == InfoOf(op).args
    ensures var f, g := StepItem(env, Operation(op), State(values, w)), StepItem(env, Operation(op), State(base + values, w));
            && (f.Next? ==> g == Next(State(base + f.state.stack, f.state.world)))
            && (f.Halt? ==> g == f)
  {
    hide MemoryRange, ViewOf, ExecItem;
    var n := |base + values|;
    if |values| >= 1 { assert (base + values)[n - 1] == values[|values| - 1]; }
    if |values| >= 2 {
      assert (base + values)[n - 2] == values[|values| - 2];
      assert (base + values)[..n - 2] == base + values[..|values| - 2];
    }
  }

  lemma {:induction false} PerformBelow(env: Env, op: Opcode, args: seq<Value>, base: seq<Value>, w: World)
    requires |args| == InfoOf(op).args
    ensures var f, g := Perform(env, op, args, [], w), Perform(env, op, args, base, w);
            f.Some? ==> g == Some(State(base + f.value.stack, f.value.world))
  {
    hide ReadWord, WriteWord, PatchWorld, ViewOf, IsArithmetic, IsEnvironment, IsEffect;
    var f := Perform(env, op, args, [], w);
    assert base + [] == base;
    if f.Some? && |f.value.stack| == 1 { assert base + f.value.stack == base + [f.value.stack[0]]; }
  }

  // ----- taking fragments apart -----

  lemma {:induction false} PlacedAdd(p: seq<Item>, pc: nat, c: Code, item: Item, n: nat)
    requires Placed(p, pc, AddItem(c, item), n)
    ensures Placed(p, pc, c, n) && pc + |c.items| < |p| && p[pc + |c.items|] == ShiftItem(item, n)
  {
    hide Shift;
    ShiftConcat(c.items, [item], n);
    CodeAtSplit(p, pc, Shift(c.items, n), Shift([item], n));
    ItemAt(p, pc + |c.items|, Shift([item], n), 0);
  }

  lemma {:induction false} PlacedAddCode(p: seq<Item>, pc: nat, c: Code, d: Code, n: nat)
    requires Placed(p, pc, AddCode(c, d), n)
    ensures Placed(p, pc, c, n) && Placed(p, pc + |c.items|, d, c.usedTags + n)
  {
    hide Shift;
    ShiftConcat(c.items, Shift(d.items, c.usedTags), n);
    ShiftTwice(d.items, c.usedTags, n);
    CodeAtSplit(p, pc, Shift(c.items, n), Shift(d.items, c.usedTags + n));
  }

  lemma {:induction false} PlacedAddTo(p: seq<Item>, pc: nat, c: Code, d: Code, deposit: int, n: nat)
    requires AddTo(c, d, deposit).Some? && Placed(p, pc, AddTo(c, d, deposit).value, n)
    ensures Placed(p, pc, c, n) && Placed(p, pc + |c.items|, d, c.usedTags + n)
    ensures CodeAt(p, pc + |c.items| + |d.items|, Pops(d.deposit - deposit))
    ensures |AddTo(c, d, deposit).value.items| == |c.items| + |d.items| + (d.deposit - deposit)
  {
    hide Shift;
    var a, pops := AddCode(c, d), Pops(d.deposit - deposit);
    ShiftConcat(a.items, pops, n);
    assert Shift(pops, n) == pops;
    CodeAtSplit(p, pc, Shift(a.items, n), pops);
    PlacedAddCode(p, pc, c, d, n);
  }

  lemma {:induction false} PlacedJump(p: seq<Item>, pc: nat, c: Code, t: nat, conditional: bool, n: nat)
    requires Placed(p, pc, if conditional then AddJumpI(c, t) else AddJump(c, t), n)
    ensures Placed(p, pc, c, n) && pc + |c.items| + 1 < |p|
    ensures p[pc + |c.items|] == ShiftItem(PushMark(t), n)
    ensures p[pc + |c.items| + 1] == Operation(if conditional then JUMPI else JUMP)
  {
    hide Placed;
    var op := Operation(if conditional then JUMPI else JUMP);
    PlacedAdd(p, pc, AddItem(c, PushMark(t)), op, n);
    PlacedAdd(p, pc, c, PushMark(t), n);
  }

  /** The tag number of a mark inside a renumbered fragment. */
  function TagOf(t: nat, n: nat): Word { (t % MODULUS + n) % MODULUS }

  lemma {:induction false} ShiftedMarks(t: nat, n: nat)
    ensures ShiftItem(PushMark(t), n) == PushTagItem(TagOf(t, n)) && ShiftItem(Mark(t), n) == TagItem(TagOf(t, n))
  {
  }

  // ----- computing -----

  /** From a state, the program computes a result on top of `base` and is then at pc'. */
  ghost predicate Computes(env: Env, p: seq<Item>, pc: nat, s: State, pc': nat, base: seq<Value>, r: Result,
      deposit: int) {
    && (r.Ends? ==> |r.values| == deposit && Reaches(env, p, pc, s, pc', State(base + r.values, r.world)))
    && (r.Stops? ==> HaltsWith(env, p, pc, s, r.outcome))
  }

  function Append(x: Result, y: Result): Result {
    if x.Ends? && y.Ends? then Ends(x.values + y.values, y.world) else if x.Ends? then y else x
  }

  lemma {:induction false} ComputesThen(env: Env, p: seq<Item>, a: nat, s: State, b: nat, c: nat, base: seq<Value>,
      x: Result, dx: int, y: Result, dy: int)
    requires Computes(env, p, a, s, b, base, x, dx)
    requires x.Ends? ==> Computes(env, p, b, State(base + x.values, x.world), c, base + x.values, y, dy)
    ensures Computes(env, p, a, s, c, base, Append(x, y), dx + dy)
  {
    hide HaltsWith, Reaches;
    if x.Ends? {
      var s1 := State(base + x.values, x.world);
      if y.Ends? {
        assert base + x.values + y.values == base + (x.values + y.values);
        ReachesOn(env, p, a, s, b, s1, c, State(base + x.values + y.values, y.world));
      } else if y.Stops? {
        ReachesHalt(env, p, a, s, b, s1, y.outcome);
      }
    }
  }

  /** After steps that only move on. */
  lemma {:induction false} ComputesAfter(env: Env, p: seq<Item>, a: nat, s: State, b: nat, s': State, c: nat,
      base: seq<Value>, r: Result, d: int)
    requires Reaches(env, p, a, s, b, s') && Computes(env, p, b, s', c, base, r, d)
    ensures Computes(env, p, a, s, c, base, r, d)
  {
    hide HaltsWith, Reaches;
    if r.Ends? {
      ReachesOn(env, p, a, s, b, s', c, State(base + r.values, r.world));
    } else if r.Stops? {
      ReachesHalt(env, p, a, s, b, s', r.outcome);
    }
  }

  /** Before steps that only move on. */
  lemma {:induction false} ComputesBefore(env: Env, p: seq<Item>, a: nat, s: State, b: nat, c: nat, base: seq<Value>,
      r: Result, d: int)
    requires Computes(env, p, a, s, b, base, r, d)
    requires r.Ends? ==> Reaches(env, p, b, State(base + r.values, r.world), c, State(base + r.values, r.world))
    ensures Computes(env, p, a, s, c, base, r, d)
  {
    hide HaltsWith, Reaches;
    if r.Ends? {
      var t := State(base + r.values, r.world);
      ReachesOn(env, p, a, s, b, t, c, t);
    }
  }

  lemma {:induction false} KeepComputes(env: Env, p: seq<Item>, a: nat, s: State, b: nat, base: seq<Value>, r: Result,
      d: int, keep: int)
    requires Computes(env, p, a, s, b, base, r, d) && 0 <= keep <= d && CodeAt(p, b, Pops(d - keep))
    ensures Computes(env, p, a, s, b + (d - keep), base, Keep(r, keep), keep)
  {
    hide HaltsWith, Reaches, CodeAt;
    if r.Ends? {
      PopsReach(env, p, b, d - keep, base, r.values, r.world);
      ReachesOn(env, p, a, s, b, State(base + r.values, r.world), b + (d - keep),
          State(base + r.values[..keep], r.world));
    }
  }

  /** One instruction on the values that lie on top. */
  lemma {:induction false} ApplyRuns(env: Env, p: seq<Item>, b: nat, base: seq<Value>, values: seq<Value>, w: World,
      op: Opcode)
    requires b < |p| && p[b] == Operation(op) && ValidFunctional(op) && |values| == InfoOf(op).args
    ensures Computes(env, p, b, State(base + values, w), b + 1, base, Apply(env, op, values, w), InfoOf(op).ret)
  {
    hide HaltsWith, Reaches, StepItem, InfoOf;
    var s := State(base + values, w);
    ApplyBelow(env, op, base, values, w);
    var f, g := StepItem(env, Operation(op), State(values, w)), StepItem(env, Operation(op), s);
    if f.Next? {
      ResultCount(env, op, values, w);
      ItemReaches(env, p, b, s, g.state);
    } else if f.Halt? {
      ItemHalts(env, p, b, s, f.outcome);
    }
  }

  ghost function Then(env: Env, op: Opcode, x: Result): Result {
    if x.Ends? then Apply(env, op, x.values, x.world) else x
  }

  /** One instruction on the values just computed. */
  lemma {:induction false} ApplyComputes(env: Env, p: seq<Item>, a: nat, s: State, b: nat, base: seq<Value>, x: Result,
      d: int, op: Opcode)
    requires Computes(env, p, a, s, b, base, x, d) && b < |p| && p[b] == Operation(op) && ValidFunctional(op)
    requires d == InfoOf(op).args
    ensures Computes(env, p, a, s, b + 1, base, Then(env, op, x), InfoOf(op).ret)
  {
    hide HaltsWith, Reaches, Apply, InfoOf;
    if x.Ends? {
      ApplyRuns(env, p, b, base, x.values, x.world, op);
      ComputesAfter(env, p, a, s, b, State(base + x.values, x.world), b + 1, base, Apply(env, op, x.values, x.world),
          InfoOf(op).ret);
    }
  }

  /** An instruction leaves as many values as the instruction table says. */
  lemma {:induction false} ResultCount(env: Env, op: Opcode, values: seq<Value>, w: World)
    requires ValidFunctional(op) && |values| == InfoOf(op).args && StepItem(env, Operation(op), State(values, w)).Next?
    ensures |StepItem(env, Operation(op), State(values, w)).state.stack| == InfoOf(op).ret
  {
    hide ReadWord, WriteWord, PatchWorld, ViewOf;
  }

  /** ISZERO on a number. */
  lemma {:induction false} NegateReaches(env: Env, p: seq<Item>, pc: nat, base: seq<Value>, x: Word, w: World)
    requires EvmArithmetic(env) && pc < |p| && p[pc] == Operation(ISZERO)
    ensures Reaches(env, p, pc, State(base + [Num(x)], w), pc + 1, State(base + [Num(if x == 0 then 1 else 0)], w))
  {
    hide HaltsWith, Reaches, StepItem, EvmArithmetic;
    var s := State(base + [Num(x)], w);
    UnaryStep(env, ISZERO, s, x);
    assert s.stack[..|base|] == base;
    ItemReaches(env, p, pc, s, State(base + [Num(if x == 0 then 1 else 0)], w));
  }

  // ----- jumps inside a program -----

  /** A tag is pushed and jumped to; the tag itself is at k. */
  predicate JumpAt(p: seq<Item>, pc: nat, op: Opcode, k: nat) {
    pc + 1 < |p| && k < |p| && IsTag(p[k]) && p[pc] == PushTagItem(p[k].data) && p[pc + 1] == Operation(op)
  }

  /** A condition, possibly negated, and a conditional jump. */
  predicate BranchAt(p: seq<Item>, pc: nat, negate: bool, k: nat) {
    if negate then pc < |p| && p[pc] == Operation(ISZERO) && JumpAt(p, pc + 1, JUMPI, k) else JumpAt(p, pc, JUMPI, k)
  }

  function AfterBranch(pc: nat, negate: bool): nat { if negate then pc + 3 else pc + 2 }

  lemma {:induction false} JumpRuns(env: Env, p: seq<Item>, pc: nat, s: State, k: nat)
    requires Ready(env, p) && JumpAt(p, pc, JUMP, k)
    ensures Reaches(env, p, pc, s, k + 1, s)
  {
    hide Ready, Reaches;
    JumpReaches(env, p, pc, p[k].data, s, k);
  }

  lemma {:induction false} BranchRuns(env: Env, p: seq<Item>, pc: nat, negate: bool, k: nat, base: seq<Value>, x: Word,
      w: World)
    requires Ready(env, p) && BranchAt(p, pc, negate, k)
    ensures Reaches(env, p, pc, State(base + [Num(x)], w),
                    if (x != 0) != negate then k + 1 else AfterBranch(pc, negate), State(base, w))
  {
    hide HaltsWith, Reaches, UniqueTags, DistinctTags, EvmArithmetic;
    var j := if negate then pc + 1 else pc;
    var y: Word := if !negate then x else if x == 0 then 1 else 0;
    if negate { NegateReaches(env, p, pc, base, x, w); }
    JumpIReaches(env, p, j, p[k].data, base, y, w, k);
    if negate {
      ReachesOn(env, p, pc, State(base + [Num(x)], w), j, State(base + [Num(y)], w), if y != 0 then k + 1 else j + 2,
          State(base, w));
    }
  }

  /** A condition is computed and decides where to go on. */
  lemma {:induction false} BranchReaches(env: Env, p: seq<Item>, pc: nat, s: State, b: nat, negate: bool, k: nat,
      base: seq<Value>, x: Result)
    requires Ready(env, p) && Computes(env, p, pc, s, b, base, x, 1) && x.Ends? && IsNumber(x.values)
    requires BranchAt(p, b, negate, k)
    ensures Reaches(env, p, pc, s, if LllMeaning.Holds(x.values) != negate then k + 1 else AfterBranch(b, negate),
                    State(base, x.world))
  {
    hide HaltsWith, Reaches, Ready, BranchAt, AfterBranch;
    var v := x.values[0].word;
    assert x.values == [Num(v)];
    BranchRuns(env, p, b, negate, k, base, v, x.world);
    ReachesOn(env, p, pc, s, b, State(base + [Num(v)], x.world),
        if (v != 0) != negate then k + 1 else AfterBranch(b, negate), State(base, x.world));
  }

  /** A computation whose condition is not a number, or that does not end, has no meaning or has halted. */
  lemma {:induction false} ComputesElsewhere(env: Env, p: seq<Item>, pc: nat, s: State, b: nat, c: nat,
      base: seq<Value>, x: Result, d: int, d': int)
    requires Computes(env, p, pc, s, b, base, x, d) && !x.Ends?
    ensures Computes(env, p, pc, s, c, base, x, d')
  {
    hide HaltsWith, Reaches;
  }
}
