/** Replacing pushed constants by computed or copied ones. */
module ConstantPass {
  import opened Words
  import opened Instructions
  import opened Arithmetic
  import opened Items
  import opened Machine
  import opened Knowledge
  import opened Steps
  import opened Segments
  import opened Pieces
  import opened Peephole
  import opened Constants

  // ----- computed constants -----

  function Nums(words: seq<Word>): (r: seq<Value>)
    ensures |r| == |words| && forall i :: 0 <= i < |r| ==> r[i] == Num(words[i])
  {
    seq(|words|, i requires 0 <= i < |words| => Num(words[i]))
  }

  /** What the small evaluator does, the machine does. */
  lemma {:induction false} TinyStepRuns(env: Env, item: Item, rest: seq<Value>, stack: seq<Word>, hasShifts: bool,
      s: State)
    requires EvmArithmetic(env) && TinyStep(item, stack, hasShifts).Some? && s.stack == rest + Nums(stack)
    ensures StepItem(env, item, s) == Next(State(rest + Nums(TinyStep(item, stack, hasShifts).value), s.world))
  {
    hide StepItem, EvmArithmetic;
    if IsPushWord(item) {
      PushStep(env, item, s);
      assert s.stack + [Num(item.data)] == rest + Nums(stack + [item.data]);
    } else if item.op == NOT {
      TinyNotRuns(env, rest, stack, s);
    } else {
      TinyIsArith(item.op, stack, hasShifts);
      TinyBinaryRuns(env, item.op, rest, stack, s);
    }
  }

  lemma {:induction false} TinyNotRuns(env: Env, rest: seq<Value>, stack: seq<Word>, s: State)
    requires EvmArithmetic(env) && |stack| >= 1 && s.stack == rest + Nums(stack)
    ensures StepItem(env, Operation(NOT), s) == Next(State(rest + Nums(stack[..|stack| - 1] + [Not(stack[|stack| - 1])]), s.world))
  {
    hide StepItem, EvmArithmetic, Not;
    var n := |stack|;
    UnaryStep(env, NOT, s, stack[n - 1]);
    assert s.stack[..|s.stack| - 1] + [Num(Not(stack[n - 1]))] == rest + Nums(stack[..n - 1] + [Not(stack[n - 1])]);
  }

  lemma {:induction false} TinyBinaryRuns(env: Env, op: Opcode, rest: seq<Value>, stack: seq<Word>, s: State)
    requires EvmArithmetic(env) && IsArithmetic(op) && InfoOf(op).args == 2 && |stack| >= 2
    requires s.stack == rest + Nums(stack)
    ensures var n := |stack|;
            StepItem(env, Operation(op), s) == Next(State(rest + Nums(stack[..n - 2] + [Arith2(op, stack[n - 1], stack[n - 2])]), s.world))
  {
    hide StepItem, EvmArithmetic, Arith2, InfoOf, IsArithmetic;
    var n := |stack|;
    var r := Arith2(op, stack[n - 1], stack[n - 2]);
    BinaryStep(env, op, s, stack[n - 1], stack[n - 2]);
    assert s.stack[..|s.stack| - 2] + [Num(r)] == rest + Nums(stack[..n - 2] + [r]);
  }

  lemma {:induction false} TinyIsArith(op: Opcode, stack: seq<Word>, hasShifts: bool)
    requires op != NOT && TinyStep(Operation(op), stack, hasShifts).Some?
    ensures IsArithmetic(op) && InfoOf(op).args == 2 && |stack| >= 2
    ensures var n := |stack|;
            TinyStep(Operation(op), stack, hasShifts).value == stack[..n - 2] + [Arith2(op, stack[n - 1], stack[n - 2])]
  {
    hide Exp, Shl, Shr, Mul, Add, Sub, Not;
  }

  lemma {:induction false} TinyRuns(env: Env, items: seq<Item>, rest: seq<Value>, stack: seq<Word>, hasShifts: bool,
      s: State)
    requires EvmArithmetic(env) && TinyRun(items, stack, hasShifts).Some? && s.stack == rest + Nums(stack)
    ensures RunSegment(env, items, s) == Next(State(rest + Nums(TinyRun(items, stack, hasShifts).value), s.world))
    decreases |items|
  {
    hide StepItem, EvmArithmetic, TinyStep;
    if |items| > 0 {
      var n := |items| - 1;
      TinyRuns(env, items[..n], rest, stack, hasShifts, s);
      var mid := TinyRun(items[..n], stack, hasShifts).value;
      TinyStepRuns(env, items[n], rest, mid, hasShifts, State(rest + Nums(mid), s.world));
    }
  }

  lemma {:induction false} ComputedRefines(env: Env, value: Word, routine: seq<Item>, hasShifts: bool)
    requires LinkedEnv(env) && PushesValue(routine, value, hasShifts)
    ensures Refines(env, None, [PushWord(value)], routine)
  {
    hide NumericState, RunSegment, LinkedEnv, StepItem, EvmArithmetic;
    LinkedArithmetic(env);
    forall s | NumericState(s) ensures RunSegment(env, routine, s) == RunSegment(env, [PushWord(value)], s) {
      assert s.stack + Nums([]) == s.stack;
      assert TinyRun(routine, [], hasShifts) == Some([] + [value]);
      TinyRuns(env, routine, s.stack, [], hasShifts, s);
      Unroll1(env, PushWord(value), s);
      PushStep(env, PushWord(value), s);
      assert s.stack + Nums([] + [value]) == s.stack + [Num(value)];
    }
  }

  lemma {:induction false} TinyStepNoTag(item: Item, stack: seq<Word>, hasShifts: bool)
    requires TinyStep(item, stack, hasShifts).Some?
    ensures !IsTag(item)
  {
  }

  lemma {:induction false} RoutineHasNoTags(routine: seq<Item>, stack: seq<Word>, hasShifts: bool)
    requires TinyRun(routine, stack, hasShifts).Some?
    ensures NoTags(routine)
    decreases |routine|
  {
    hide TinyStep;
    if |routine| > 0 {
      var n := |routine| - 1;
      RoutineHasNoTags(routine[..n], stack, hasShifts);
      TinyStepNoTag(routine[n], TinyRun(routine[..n], stack, hasShifts).value, hasShifts);
      forall i | 0 <= i < |routine| ensures !IsTag(routine[i]) {
        if i < n { assert routine[i] == routine[..n][i]; }
      }
    }
  }

  // ----- copied constants -----

  /** Copies 32 bytes of data over the first memory word, loads them and restores the word. */
  function CopyRoutine(data: Word): seq<Item> {
    [PushWord(0), Operation(DUP1), Operation(MLOAD), PushWord(32), Data(PushData, data), Operation(DUP4),
     Operation(CODECOPY), Operation(DUP2), Operation(MLOAD), Operation(SWAP2), Operation(MSTORE)]
  }

  function CodeBytes(value: Word): map<Word, Octet> { map i: Word | 0 <= i < 32 :: BytesOf(value, 32)[i] }

  /** The data section holds the big-endian bytes of the value where the data item says. */
  ghost predicate DataPlaced(env: Env, data: Word, value: Word) {
    forall v: View :: var e := env.effect(CODECOPY, [0, env.data(PushData, data), 32], v); e.storage == map[] && e.memory == CodeBytes(value)
  }

  lemma {:induction false} CopiedWorld(env: Env, data: Word, value: Word, w: World)
    requires DataPlaced(env, data, value)
    ensures PatchWorld(w, env.effect(CODECOPY, [0, env.data(PushData, data), 32], ViewOf(w)),
                       Event(CODECOPY, [0, env.data(PushData, data), 32]))
            == w.(memory := WriteWord(w.memory, 0, Num(value)))
  {
    hide PatchWorld, WriteWord, ViewOf, CodeBytes;
    var e := env.effect(CODECOPY, [0, env.data(PushData, data), 32], ViewOf(w));
    Patched(w, e, Event(CODECOPY, [0, env.data(PushData, data), 32]), value);
  }

  lemma {:induction false} Patched(w: World, e: Effect, event: Event, value: Word)
    requires e.storage == map[] && e.memory == CodeBytes(value) && !IsInteraction(event.op)
    ensures PatchWorld(w, e, event) == w.(memory := WriteWord(w.memory, 0, Num(value)))
  {
    hide BytesOf;
    var w', m := PatchWorld(w, e, event), WriteWord(w.memory, 0, Num(value));
    forall k: Word ensures w'.memory[k] == m[k] { }
    assert w'.memory == m;
    forall k: Word ensures w'.storage[k] == w.storage[k] { }
    assert w'.storage == w.storage;
  }

  lemma {:induction false} WriteOver(m: Memory, a: Word, x: Value, y: Value)
    ensures WriteWord(WriteWord(m, a, x), a, y) == WriteWord(m, a, y)
  {
    hide ToCells;
  }

  lemma {:induction false} OneMoreItem(env: Env, items: seq<Item>, item: Item, s: State, m: State, m': State)
    requires RunSegment(env, items, s) == Next(m) && StepItem(env, item, m) == Next(m')
    ensures RunSegment(env, items + [item], s) == Next(m')
  {
    hide StepItem;
    RunSegmentSnoc(env, items, item, s);
  }

  lemma {:induction false} DupStep(env: Env, n: nat, s: State)
    requires 1 <= n <= 16 && n <= |s.stack|
    ensures StepItem(env, Operation(DUP1 + n - 1), s) == Next(State(s.stack + [s.stack[|s.stack| - n]], s.world))
  {
  }

  lemma {:induction false} LoadStep(env: Env, s: State, a: Word, v: Value)
    requires |s.stack| >= 1 && s.stack[|s.stack| - 1] == Num(a) && ReadWord(s.world.memory, a) == Some(v)
    ensures StepItem(env, Operation(MLOAD), s) == Next(State(s.stack[..|s.stack| - 1] + [v], s.world))
  {
    hide ReadWord;
  }

  lemma {:induction false} StoreStep(env: Env, s: State, a: Word)
    requires |s.stack| >= 2 && s.stack[|s.stack| - 1] == Num(a)
    ensures StepItem(env, Operation(MSTORE), s) ==
            Next(State(s.stack[..|s.stack| - 2], s.world.(memory := WriteWord(s.world.memory, a, s.stack[|s.stack| - 2]))))
  {
    hide WriteWord;
  }

  lemma {:induction false} CopyStep(env: Env, s: State, data: Word, value: Word)
    requires DataPlaced(env, data, value) && |s.stack| >= 3
    requires Top(s.stack, 3) == [Num(0), Num(env.data(PushData, data)), Num(32)]
    ensures StepItem(env, Operation(CODECOPY), s) ==
            Next(State(s.stack[..|s.stack| - 3], s.world.(memory := WriteWord(s.world.memory, 0, Num(value)))))
  {
    CopiedWorld(env, data, value, s.world);
    hide WriteWord, PatchWorld, DataPlaced, ViewOf;
    assert NumsOf(Top(s.stack, 3)) == [0, env.data(PushData, data), 32];
  }

  /** The first half: the old word is saved and the data lies in memory. */
  lemma {:induction false} CopyFirst(env: Env, s: State, data: Word, value: Word, saved: Value)
    requires DataPlaced(env, data, value) && ReadWord(s.world.memory, 0) == Some(saved)
    ensures RunSegment(env, CopyRoutine(data)[..7], s) ==
            Next(State(s.stack + [Num(0), saved], s.world.(memory := WriteWord(s.world.memory, 0, Num(value)))))
  {
    hide ReadWord, WriteWord, StepItem, RunSegment, DataPlaced;
    var r := CopyRoutine(data);
    var off := Num(env.data(PushData, data));
    var s1 := State(s.stack + [Num(0)], s.world);
    var s2 := State(s.stack + [Num(0), Num(0)], s.world);
    var s3 := State(s.stack + [Num(0), saved], s.world);
    var s4 := State(s.stack + [Num(0), saved, Num(32)], s.world);
    var s5 := State(s.stack + [Num(0), saved, Num(32), off], s.world);
    var s6 := State(s.stack + [Num(0), saved, Num(32), off, Num(0)], s.world);
    PushStep(env, r[0], s);
    Unroll1(env, r[0], s);
    DupStep(env, 1, s1);
    assert s1.stack + [Num(0)] == s2.stack;
    OneMoreItem(env, [r[0]], r[1], s, s1, s2);
    LoadStep(env, s2, 0, saved);
    assert s2.stack[..|s.stack| + 1] + [saved] == s3.stack;
    OneMoreItem(env, [r[0]] + [r[1]], r[2], s, s2, s3);
    PushStep(env, r[3], s3);
    assert s3.stack + [Num(32)] == s4.stack;
    OneMoreItem(env, [r[0]] + [r[1]] + [r[2]], r[3], s, s3, s4);
    PushStep(env, r[4], s4);
    assert s4.stack + [off] == s5.stack;
    OneMoreItem(env, [r[0]] + [r[1]] + [r[2]] + [r[3]], r[4], s, s4, s5);
    DupStep(env, 4, s5);
    assert s5.stack + [Num(0)] == s6.stack;
    OneMoreItem(env, [r[0]] + [r[1]] + [r[2]] + [r[3]] + [r[4]], r[5], s, s5, s6);
    assert Top(s6.stack, 3) == [Num(0), off, Num(32)];
    CopyStep(env, s6, data, value);
    assert s6.stack[..|s.stack| + 2] == s3.stack;
    OneMoreItem(env, [r[0]] + [r[1]] + [r[2]] + [r[3]] + [r[4]] + [r[5]], r[6], s, s6,
        State(s3.stack, s.world.(memory := WriteWord(s.world.memory, 0, Num(value)))));
    assert [r[0]] + [r[1]] + [r[2]] + [r[3]] + [r[4]] + [r[5]] + [r[6]] == r[..7];
  }

  lemma {:induction false} Swap2Step(env: Env, s: State)
    requires |s.stack| >= 3
    ensures var n := |s.stack|;
            StepItem(env, Operation(SWAP2), s) == Next(State(s.stack[..n - 3] + [s.stack[n - 1], s.stack[n - 2], s.stack[n - 3]], s.world))
  {
    var n := |s.stack|;
    assert Swapped(s.stack, 2) == s.stack[..n - 3] + [s.stack[n - 1], s.stack[n - 2], s.stack[n - 3]];
  }

  lemma {:induction false} Restored(m: Memory, value: Word, saved: Value)
    requires ReadWord(m, 0) == Some(saved) && saved.Num?
    ensures ReadWord(WriteWord(m, 0, Num(value)), 0) == Some(Num(value))
    ensures WriteWord(WriteWord(m, 0, Num(value)), 0, saved) == m
  {
    hide ReadWord, WriteWord;
    ReadAfterWrite(m, 0, Num(value));
    WriteOver(m, 0, Num(value), saved);
    WriteSame(m, 0, saved);
  }

  /** The second half: the data is loaded and the old word restored. */
  lemma {:induction false} CopySecond(env: Env, base: seq<Value>, w: World, saved: Value, value: Word, m: Memory)
    requires w.memory == WriteWord(m, 0, Num(value)) && ReadWord(m, 0) == Some(saved) && saved.Num?
    ensures RunSegment(env, CopyRoutine(0)[7..], State(base + [Num(0), saved], w)) == Next(State(base + [Num(value)], w.(memory := m)))
  {
    hide ReadWord, WriteWord, StepItem, RunSegment;
    Restored(m, value, saved);
    var r := CopyRoutine(0);
    var s := State(base + [Num(0), saved], w);
    var s1 := State(base + [Num(0), saved, Num(0)], w);
    var s2 := State(base + [Num(0), saved, Num(value)], w);
    var s3 := State(base + [Num(value), saved, Num(0)], w);
    DupStep(env, 2, s);
    assert s.stack + [Num(0)] == s1.stack;
    Unroll1(env, r[7], s);
    LoadStep(env, s1, 0, Num(value));
    assert s1.stack[..|base| + 2] + [Num(value)] == s2.stack;
    OneMoreItem(env, [r[7]], r[8], s, s1, s2);
    Swap2Step(env, s2);
    assert s2.stack[..|base|] + [Num(value), saved, Num(0)] == s3.stack;
    OneMoreItem(env, [r[7]] + [r[8]], r[9], s, s2, s3);
    StoreStep(env, s3, 0);
    assert s3.stack[..|base| + 1] == base + [Num(value)];
    OneMoreItem(env, [r[7]] + [r[8]] + [r[9]], r[10], s, s3, State(base + [Num(value)], w.(memory := m)));
    assert [r[7]] + [r[8]] + [r[9]] + [r[10]] == r[7..];
  }

  /** The copy routine pushes the constant and leaves memory as it was. */
  lemma {:induction false} CopyRuns(env: Env, s: State, data: Word, value: Word)
    requires DataPlaced(env, data, value) && NumericState(s)
    ensures RunSegment(env, CopyRoutine(data), s) == Next(State(s.stack + [Num(value)], s.world))
  {
    hide ReadWord, WriteWord, RunSegment, DataPlaced, NumericWorld;
    NumericRead(s.world, 0);
    var saved := ReadWord(s.world.memory, 0).value;
    var w := s.world.(memory := WriteWord(s.world.memory, 0, Num(value)));
    CopyFirst(env, s, data, value, saved);
    CopySecond(env, s.stack, w, saved, value, s.world.memory);
    assert CopyRoutine(data)[7..] == CopyRoutine(0)[7..];
    assert CopyRoutine(data) == CopyRoutine(data)[..7] + CopyRoutine(data)[7..];
    RunSegmentConcat(env, CopyRoutine(data)[..7], CopyRoutine(data)[7..], s);
  }

  lemma {:induction false} CopyRefines(env: Env, data: Word, value: Word)
    requires DataPlaced(env, data, value)
    ensures Refines(env, None, [PushWord(value)], CopyRoutine(data))
  {
    hide NumericState, RunSegment, DataPlaced, StepItem;
    forall s | NumericState(s) ensures RunSegment(env, CopyRoutine(data), s) == RunSegment(env, [PushWord(value)], s) {
      CopyRuns(env, s, data, value);
      Unroll1(env, PushWord(value), s);
      PushStep(env, PushWord(value), s);
    }
  }

  // ----- the pass -----

  /** What becomes of one item. */
  function ReplacedItem(item: Item, replacements: map<Word, seq<Item>>): seq<Item> {
    if IsPushWord(item) && item.data in replacements then replacements[item.data] else [item]
  }

  function ReplacePieces(items: seq<Item>, replacements: map<Word, seq<Item>>): (ps: seq<Piece>)
    ensures |ps| == |items| && forall i :: 0 <= i < |ps| ==>
              ps[i] == Piece([items[i]], ReplacedItem(items[i], replacements))
  {
    seq(|items|, i requires 0 <= i < |items| => Piece([items[i]], ReplacedItem(items[i], replacements)))
  }

  lemma {:induction false} PiecesCover(items: seq<Item>, replacements: map<Word, seq<Item>>)
    ensures Befores(ReplacePieces(items, replacements)) == items
    decreases |items|
  {
    if |items| > 0 {
      var n := |items| - 1;
      PiecesCover(items[..n], replacements);
      assert ReplacePieces(items, replacements)[..n] == ReplacePieces(items[..n], replacements);
      assert items == items[..n] + [items[n]];
    }
  }

  /** Replaces every constant in the table. */
  method ReplaceConstants(items: seq<Item>, replacements: map<Word, seq<Item>>) returns (replaced: seq<Item>)
    ensures replaced == Afters(ReplacePieces(items, replacements))
  {
    replaced := [];
    for i := 0 to |items|
      invariant replaced == Afters(ReplacePieces(items[..i], replacements))
    {
      assert ReplacePieces(items[..i + 1], replacements)[..i] == ReplacePieces(items[..i], replacements);
      if IsPushWord(items[i]) && items[i].data in replacements {
        replaced := replaced + replacements[items[i].data];
      } else {
        replaced := replaced + [items[i]];
      }
    }
    assert items[..|items|] == items;
  }

  /** A table of replacements that push what they replace, in an environment. */
  ghost predicate TableOk(env: Env, replacements: map<Word, seq<Item>>) {
    forall v :: v in replacements ==> Refines(env, None, [PushWord(v)], replacements[v]) && NoTags(replacements[v])
  }

  lemma {:induction false} SameItemRefines(env: Env, item: Item)
    ensures Refines(env, None, [item], [item])
  {
    hide RunSegment, NumericState;
  }

  lemma {:induction false} ReplacementPass(env: Env, items: seq<Item>, replacements: map<Word, seq<Item>>)
    requires ProgramOk(env, items) && TableOk(env, replacements)
    ensures PassOk(env, ReplacePieces(items, replacements))
  {
    hide LinkedEnv, UniqueTags, DistinctTags, Refines, ShortTags;
    var ps := ReplacePieces(items, replacements);
    PiecesCover(items, replacements);
    forall i | 0 <= i < |ps| ensures IsTagPiece(ps[i]) || (NoTags(ps[i].before) && NoTags(ps[i].after)) { }
    forall i | 0 <= i < |ps| && !IsTagPiece(ps[i]) ensures Refines(env, NextTag(ps, i), ps[i].before, ps[i].after) {
      SameItemRefines(env, items[i]);
      RefinesBefore(env, NextTag(ps, i), ps[i].before, ps[i].after);
    }
  }

  /** Replacing constants by code that pushes them keeps every halting run. */
  lemma {:induction false} ReplacementPreserves(env: Env, items: seq<Item>, replacements: map<Word, seq<Item>>)
    requires ProgramOk(env, items) && TableOk(env, replacements)
    ensures var result := Afters(ReplacePieces(items, replacements));
            ProgramOk(env, result) && SameOutcomes(env, items, result)
  {
    hide LinkedEnv, UniqueTags, DistinctTags, ShortTags, NumericState, HaltsWith, TableOk, AllRefine, Afters, Befores;
    var ps := ReplacePieces(items, replacements);
    ReplacementPass(env, items, replacements);
    PiecesCover(items, replacements);
    TagsKept(env, ps);
    forall s, o | NumericState(s) && HaltsWith(env, items, 0, s, o) ensures HaltsWith(env, Afters(ps), 0, s, o) {
      PassPreserves(env, ps, s, o);
    }
  }

  /** How a constant is replaced: not at all, by computing it, or by copying it from the data section. */
  datatype Choice = Keep | Computed(routine: seq<Item>) | Copied(data: Word)

  /** Cost estimates; the choice they lead to does not matter for correctness. */
  datatype Costs = Costs(literal: (Word, nat) -> int, copy: (Word, nat) -> int, compute: (seq<Item>, nat) -> int)

  /** A table of replacements is made of routines that push their constants and of copies of data. */
  ghost predicate TableBuilt(replacements: map<Word, seq<Item>>, copied: map<Word, Word>, hasShifts: bool) {
    forall v :: v in replacements ==>
      PushesValue(replacements[v], v, hasShifts) || (v in copied && replacements[v] == CopyRoutine(copied[v]))
  }

  /** Nothing changes but pushes of constants, for routines that compute or copy them. */
  ghost predicate ConstantsReplaced(items: seq<Item>, result: seq<Item>, copied: map<Word, Word>, hasShifts: bool) {
    exists table: map<Word, seq<Item>> :: TableBuilt(table, copied, hasShifts) && result == Afters(ReplacePieces(items, table))
  }

  lemma {:induction false} ReplacementShape(items: seq<Item>, replacements: map<Word, seq<Item>>, copied: map<Word,
      Word>, hasShifts: bool)
    requires TableBuilt(replacements, copied, hasShifts)
    ensures UniqueTags(items) ==> UniqueTags(Afters(ReplacePieces(items, replacements)))
  {
    hide UniqueTags, PushesValue;
    var ps := ReplacePieces(items, replacements);
    PiecesCover(items, replacements);
    forall i | 0 <= i < |ps| ensures IsTagPiece(ps[i]) || (NoTags(ps[i].before) && NoTags(ps[i].after)) {
      if IsPushWord(items[i]) && items[i].data in replacements { BuiltHasNoTags(replacements, copied, hasShifts, items[i].data); }
    }
    if UniqueTags(items) { TagsUnique(ps); }
  }

  lemma {:induction false} BuiltHasNoTags(replacements: map<Word, seq<Item>>, copied: map<Word, Word>, hasShifts: bool,
      v: Word)
    requires TableBuilt(replacements, copied, hasShifts) && v in replacements
    ensures NoTags(replacements[v])
  {
    if PushesValue(replacements[v], v, hasShifts) {
      assert TinyRun(replacements[v], [], hasShifts).Some?;
      RoutineHasNoTags(replacements[v], [], hasShifts);
    }
  }

  lemma {:induction false} BuiltIsOk(env: Env, replacements: map<Word, seq<Item>>, copied: map<Word, Word>,
      hasShifts: bool)
    requires TableBuilt(replacements, copied, hasShifts) && LinkedEnv(env) && forall v :: v in copied ==>
              DataPlaced(env, copied[v], v)
    ensures TableOk(env, replacements)
  {
    hide LinkedEnv, DataPlaced, Refines;
    forall v | v in replacements ensures Refines(env, None, [PushWord(v)], replacements[v]) && NoTags(replacements[v]) {
      if PushesValue(replacements[v], v, hasShifts) {
        ComputedRefines(env, v, replacements[v], hasShifts);
        assert TinyRun(replacements[v], [], hasShifts).Some?;
        RoutineHasNoTags(replacements[v], [], hasShifts);
      } else {
        CopyRefines(env, copied[v], v);
      }
    }
  }

  /** Decides for one constant. */
  method Choose(value: Word, multiplicity: nat, hasShifts: bool, costs: Costs, dataId: Word -> Word) returns (c: Choice)
    ensures c.Computed? ==> PushesValue(c.routine, value, hasShifts)
    ensures c.Copied? ==> c.data == dataId(value)
  {
    hide PushesValue;
    var compute := new ComputeMethod(value, hasShifts, r => costs.compute(r, multiplicity), 10000);
    var literalGas, copyGas, computeGas := costs.literal(value, multiplicity), costs.copy(value,
        multiplicity), costs.compute(compute.routine, multiplicity);
    if copyGas < literalGas && copyGas < computeGas {
      c := Copied(dataId(value));
    } else if computeGas < literalGas && computeGas <= copyGas {
      c := Computed(compute.routine);
    } else {
      c := Keep;
    }
  }

  function Multiplicity(items: seq<Item>, value: Word): nat
    decreases |items|
  {
    if |items| == 0 then 0 else Multiplicity(items[..|items| - 1], value) + (if items[|items| - 1] == PushWord(value) then 1 else 0)
  }

  /** Optimises all constants of a program. `copied` says which constants the data section has to hold. */
  method OptimiseConstants(items: seq<Item>, hasShifts: bool, costs: Costs,
      dataId: Word -> Word) returns (result: seq<Item>, copied: map<Word, Word>)
    ensures ConstantsReplaced(items, result, copied, hasShifts)
    ensures UniqueTags(items) ==> UniqueTags(result)
    ensures forall env | ProgramOk(env, items) && (forall v :: v in copied ==> DataPlaced(env, copied[v], v)) ::
              ProgramOk(env, result) && SameOutcomes(env, items, result)
  {
    hide ProgramOk, SameOutcomes, DataPlaced, PushesValue, Multiplicity, Afters, UniqueTags;
    var replacements: map<Word, seq<Item>> := map[];
    copied := map[];
    for i := 0 to |items|
      invariant TableBuilt(replacements, copied, hasShifts)
    {
      if IsPushWord(items[i]) && items[i].data >= 0x100 && items[i].data !in replacements {
        var value := items[i].data;
        var c := Choose(value, Multiplicity(items, value), hasShifts, costs, dataId);
        match c
        case Keep =>
        case Computed(routine) => replacements := replacements[value := routine];
        case Copied(data) =>
          copied := copied[value := data];
          replacements := replacements[value := CopyRoutine(data)];
      }
    }
    result := ReplaceConstants(items, replacements);
    ReplacementShape(items, replacements, copied, hasShifts);
    forall env | ProgramOk(env, items) && (forall v :: v in copied ==> DataPlaced(env, copied[v], v))
      ensures ProgramOk(env, result) && SameOutcomes(env, items, result)
    {
      assert LinkedEnv(env) by { ProgramIsLinked(env, items); }
      BuiltIsOk(env, replacements, copied, hasShifts);
      ReplacementPreserves(env, items, replacements);
    }
  }

  lemma {:induction false} ProgramIsLinked(env: Env, items: seq<Item>)
    requires ProgramOk(env, items)
    ensures LinkedEnv(env)
  {
  }
}
