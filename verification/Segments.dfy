/** Programs that jump, and passes that rewrite them piece by piece. */
module Segments {
  import opened Words
  import opened Instructions
  import opened Items
  import opened Machine
  import opened Knowledge

  // ----- one item, control flow included -----

  /** What a run leaves behind: returned bytes, storage as the world can see it, and the interactions. */
  datatype Outcome =
    | Returned(data: seq<Octet>, storage: imap<Word, Option<Word>>, trace: seq<Event>)
    | Reverted(data: seq<Octet>)
    | Destroyed(beneficiary: Word, storage: imap<Word, Option<Word>>, trace: seq<Event>)
    | Failed

  datatype Flow = Next(state: State) | Jump(to: Value, after: State) | Halt(outcome: Outcome) | Stuck

  /** The bytes a call returns; None if code references are among them. */
  ghost function MemoryRange(m: Memory, offset: Word, size: nat): Option<seq<Octet>> {
    var cells := seq(size, i requires 0 <= i < size => m[(offset + i) % MODULUS]);
    if AllBytes(cells) then Some(Octets(cells)) else None
  }

  ghost function StopWith(w: World, data: seq<Octet>): Flow { Halt(Returned(data, ViewOf(w).storage, w.trace)) }

  ghost function ReturnFlow(op: Opcode, s: State): Flow
    requires |s.stack| >= 2
  {
    var offset, size := s.stack[|s.stack| - 1], s.stack[|s.stack| - 2];
    if offset.Num? && size.Num? && MemoryRange(s.world.memory, offset.word, size.word).Some? then
      var data := MemoryRange(s.world.memory, offset.word, size.word).value;
      if op == RETURN then StopWith(s.world, data) else Halt(Reverted(data))
    else Stuck
  }

  ghost function JumpiFlow(s: State): Flow
    requires |s.stack| >= 2
  {
    var to, condition, rest := s.stack[|s.stack| - 1], s.stack[|s.stack| - 2], s.(stack := s.stack[..|s.stack| - 2]);
    if condition == Num(0) then Next(rest) else Jump(to, rest)
  }

  ghost function DestroyFlow(s: State): Flow
    requires |s.stack| >= 1
  {
    var to := s.stack[|s.stack| - 1];
    if to.Num? then Halt(Destroyed(to.word, ViewOf(s.world).storage, s.world.trace)) else Stuck
  }

  ghost function StepItem(env: Env, item: Item, s: State): Flow {
    if item.Operation? && AltersControlFlow(item.op) then
      if |s.stack| < InfoOf(item.op).args then Stuck
      else if item.op == STOP then StopWith(s.world, [])
      else if item.op == INVALID then Halt(Failed)
      else if item.op == JUMP then Jump(s.stack[|s.stack| - 1], s.(stack := s.stack[..|s.stack| - 1]))
      else if item.op == JUMPI then JumpiFlow(s)
      else if item.op == SELFDESTRUCT then DestroyFlow(s)
      else ReturnFlow(item.op, s)
    else
      var r := ExecItem(env, item, s);
      if r.Some? then Next(r.value) else Stuck
  }

  /** A piece of code up to where control leaves it. */
  ghost function RunSegment(env: Env, items: seq<Item>, s: State): Flow
    decreases |items|
  {
    if |items| == 0 then Next(s)
    else
      var f := RunSegment(env, items[..|items| - 1], s);
      if f.Next? then StepItem(env, items[|items| - 1], f.state) else f
  }

  lemma {:induction false} RunSegmentSnoc(env: Env, items: seq<Item>, item: Item, s: State)
    ensures RunSegment(env, items + [item], s) ==
            var f := RunSegment(env, items, s); if f.Next? then StepItem(env, item, f.state) else f
  {
    assert (items + [item])[..|items|] == items;
  }

  lemma {:induction false} RunSegmentConcat(env: Env, first: seq<Item>, second: seq<Item>, s: State)
    ensures RunSegment(env, first + second, s) ==
            var f := RunSegment(env, first, s); if f.Next? then RunSegment(env, second, f.state) else f
    decreases |second|
  {
    if |second| == 0 {
      assert first + second == first;
    } else {
      var n := |second| - 1;
      RunSegmentConcat(env, first, second[..n], s);
      assert (first + second)[..|first + second| - 1] == first + second[..n];
    }
  }

  predicate StraightLine(items: seq<Item>) {
    forall i :: 0 <= i < |items| ==> !(items[i].Operation? && AltersControlFlow(items[i].op))
  }

  /** Without control flow, a piece of code is a block. */
  lemma {:induction false} StraightLineRuns(env: Env, items: seq<Item>, s: State)
    requires StraightLine(items)
    ensures RunSegment(env, items, s) == var r := RunBlock(env, items, s); if r.Some? then Next(r.value) else Stuck
    decreases |items|
  {
    hide ExecItem;
    if |items| > 0 {
      StraightLineRuns(env, items[..|items| - 1], s);
      var last := items[|items| - 1];
      assert !(last.Operation? && AltersControlFlow(last.op));
    }
  }

  lemma {:induction false} ExecIsStep(env: Env, item: Item, s: State)
    requires ExecItem(env, item, s).Some?
    ensures StepItem(env, item, s) == Next(ExecItem(env, item, s).value)
  {
    if item.Operation? { ControlIsNotExec(env, item.op, s); }
  }

  lemma {:induction false} ControlIsNotExec(env: Env, op: Opcode, s: State)
    ensures AltersControlFlow(op) ==> ExecOp(env, op, s).None?
  {
  }

  /** A block that runs through does so as a piece of code. */
  lemma {:induction false} BlockIsSegment(env: Env, items: seq<Item>, s: State)
    requires RunBlock(env, items, s).Some?
    ensures RunSegment(env, items, s) == Next(RunBlock(env, items, s).value)
    decreases |items|
  {
    hide ExecItem, StepItem;
    if |items| > 0 {
      var n := |items| - 1;
      BlockIsSegment(env, items[..n], s);
      ExecIsStep(env, items[n], RunBlock(env, items[..n], s).value);
    }
  }

  // ----- programs -----

  predicate UniqueTags(items: seq<Item>) {
    forall i, j :: 0 <= i < j < |items| && IsTag(items[i]) && IsTag(items[j]) ==> items[i].data != items[j].data
  }

  /** Different tags of the program are different code positions. */
  ghost predicate DistinctTags(env: Env, items: seq<Item>) {
    forall i, j :: 0 <= i < |items| && 0 <= j < |items| && IsTag(items[i]) && IsTag(items[j]) && env.tag(items[i].data) == env.tag(items[j].data) ==>
      items[i].data == items[j].data
  }

  ghost predicate TagAt(env: Env, items: seq<Item>, to: Value, k: nat) {
    k < |items| && IsTag(items[k]) && env.tag(items[k].data) == to
  }

  datatype Step = At(pc: nat, state: State) | Done(outcome: Outcome) | NoStep

  /** One step of a program; running off the end stops, a jump needs a tag to land on. */
  ghost function StepProgram(env: Env, items: seq<Item>, pc: nat, s: State): Step {
    if pc >= |items| then Done(StopWith(s.world, []).outcome)
    else
      match StepItem(env, items[pc], s)
      case Next(s') => At(pc + 1, s')
      case Jump(to, s') => if exists k: nat :: TagAt(env, items, to, k) then var k: nat :| TagAt(env, items, to, k); At(k, s') else NoStep
      case Halt(o) => Done(o)
      case Stuck => NoStep
  }

  /** The outcome of a program, if it halts within the given number of steps. */
  ghost function RunProgram(env: Env, items: seq<Item>, pc: nat, s: State, fuel: nat): Option<Outcome>
    decreases fuel
  {
    if fuel == 0 then None
    else
      match StepProgram(env, items, pc, s)
      case At(pc', s') => RunProgram(env, items, pc', s', fuel - 1)
      case Done(o) => Some(o)
      case NoStep => None
  }

  ghost predicate HaltsWith(env: Env, items: seq<Item>, pc: nat, s: State, o: Outcome) {
    exists fuel: nat :: RunProgram(env, items, pc, s, fuel) == Some(o)
  }

  lemma {:induction false} TagIsUnique(env: Env, items: seq<Item>, to: Value, j: nat, k: nat)
    requires UniqueTags(items) && DistinctTags(env, items) && TagAt(env, items, to, j) && TagAt(env, items, to, k)
    ensures j == k
  {
    assert items[j].data == items[k].data;
  }

  lemma {:induction false} JumpLands(env: Env, items: seq<Item>, pc: nat, s: State, k: nat)
    requires UniqueTags(items) && DistinctTags(env, items) && pc < |items| && StepItem(env, items[pc], s).Jump?
    requires TagAt(env, items, StepItem(env, items[pc], s).to, k)
    ensures StepProgram(env, items, pc, s) == At(k, StepItem(env, items[pc], s).after)
  {
    hide StepItem, UniqueTags, DistinctTags, TagAt;
    var to := StepItem(env, items[pc], s).to;
    var j :| TagAt(env, items, to, j) && StepProgram(env, items, pc, s) == At(j, StepItem(env, items[pc], s).after);
    TagIsUnique(env, items, to, j, k);
  }

  lemma {:induction false} OneStep(env: Env, items: seq<Item>, pc: nat, s: State, pc': nat, s': State, o: Outcome)
    requires StepProgram(env, items, pc, s) == At(pc', s') && HaltsWith(env, items, pc', s', o)
    ensures HaltsWith(env, items, pc, s, o)
  {
    hide StepProgram;
    var fuel: nat :| RunProgram(env, items, pc', s', fuel) == Some(o);
    assert RunProgram(env, items, pc, s, fuel + 1) == Some(o);
  }

  lemma {:induction false} LastStep(env: Env, items: seq<Item>, pc: nat, s: State, o: Outcome)
    requires StepProgram(env, items, pc, s) == Done(o)
    ensures HaltsWith(env, items, pc, s, o)
  {
    assert RunProgram(env, items, pc, s, 1) == Some(o);
  }

  // ----- numeric states -----

  ghost predicate NumericState(s: State) { AllNums(s.stack) && NumericWorld(s.world) }

  /** Linked code keeps the state free of symbolic references. */
  lemma {:induction false} NumericExec(env: Env, item: Item, s: State)
    requires LinkedEnv(env) && NumericState(s) && ExecItem(env, item, s).Some?
    ensures NumericState(ExecItem(env, item, s).value)
  {
    if item.Data? {
      assert env.tag(item.data).Num?;
    } else {
      NumericOp(env, item.op, s);
    }
  }

  lemma {:induction false} NumericOp(env: Env, op: Opcode, s: State)
    requires LinkedEnv(env) && NumericState(s) && ExecOp(env, op, s).Some?
    ensures NumericState(ExecOp(env, op, s).value)
  {
    hide LinkedEnv, InfoOf, IsArithmetic, IsEnvironment, IsEffect, WriteWord, ReadWord;
    var n := |s.stack|;
    if op == POP || IsDup(op) || IsSwap(op) {
      NumericShuffle(env, op, s);
    } else {
      NumericPerform(env, op, Top(s.stack, InfoOf(op).args), s.stack[..n - InfoOf(op).args], s.world);
    }
  }

  lemma {:induction false} NumericShuffle(env: Env, op: Opcode, s: State)
    requires NumericState(s) && ExecOp(env, op, s).Some? && (op == POP || IsDup(op) || IsSwap(op))
    ensures NumericState(ExecOp(env, op, s).value)
  {
    hide Perform, NumericWorld;
  }

  lemma {:induction false} NumericPerform(env: Env, op: Opcode, args: seq<Value>, rest: seq<Value>, w: World)
    requires AllNums(args) && AllNums(rest) && NumericWorld(w) && |args| == InfoOf(op).args
    requires Perform(env, op, args, rest, w).Some?
    ensures NumericState(Perform(env, op, args, rest, w).value)
  {
    hide WriteWord, ReadWord, IsArithmetic, IsEnvironment, IsEffect, PatchWorld;
    if op == MLOAD {
      NumericRead(w, args[0].word);
    } else if op == MSTORE {
      NumericStore(w, args[0].word, args[1]);
    } else if IsEffect(op) {
      var e := env.effect(op, NumsOf(args), ViewOf(w));
      NumericPatch(w, e, Event(op, NumsOf(args)));
    }
  }

  lemma {:induction false} NumericStore(w: World, a: Word, v: Value)
    requires NumericWorld(w) && v.Num?
    ensures NumericWorld(w.(memory := WriteWord(w.memory, a, v)))
  {
  }

  lemma {:induction false} NumericPatch(w: World, e: Effect, event: Event)
    requires NumericWorld(w)
    ensures NumericWorld(PatchWorld(w, e, event))
  {
  }

  lemma {:induction false} NumericStep(env: Env, item: Item, s: State)
    requires LinkedEnv(env) && NumericState(s)
    ensures StepItem(env, item, s).Next? ==> NumericState(StepItem(env, item, s).state)
    ensures StepItem(env, item, s).Jump? ==> NumericState(StepItem(env, item, s).after)
  {
    hide ExecItem, LinkedEnv, NumericWorld;
    if ExecItem(env, item, s).Some? { NumericExec(env, item, s); }
  }

  lemma {:induction false} NumericSegment(env: Env, items: seq<Item>, s: State)
    requires LinkedEnv(env) && NumericState(s)
    ensures RunSegment(env, items, s).Next? ==> NumericState(RunSegment(env, items, s).state)
    ensures RunSegment(env, items, s).Jump? ==> NumericState(RunSegment(env, items, s).after)
    decreases |items|
  {
    hide StepItem, LinkedEnv, NumericState;
    if |items| > 0 {
      var n := |items| - 1;
      NumericSegment(env, items[..n], s);
      var f := RunSegment(env, items[..n], s);
      if f.Next? { NumericStep(env, items[n], f.state); }
    }
  }
}
