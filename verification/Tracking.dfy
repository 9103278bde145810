/** Why each kind of item keeps the facts about the machine true. */
module Tracking {
  import opened Words
  import opened Instructions
  import opened Items
  import opened Machine
  import opened Rules
  import opened Expressions
  import opened Classes
  import opened Knowledge
  import opened Steps

  /** Items that do not end a block for the common subexpression eliminator. */
  predicate BreaksBlock(item: Item, msizeImportant: bool) {
    match item
    case Undefined(_) => true
    case Data(kind, _) => kind == Tag || kind == PushDeployTimeAddress
    case Operation(op) =>
      if IsSwap(op) || IsDup(op) then false
      else if op == GAS || op == PC || op == MSIZE then true
      else if op == SSTORE || op == MSTORE then false
      else if !msizeImportant && (op == MLOAD || op == KECCAK256) then false
      else InfoOf(op).sideEffects || InfoOf(op).args > 2
  }

  /** The items whose meaning is tracked: those of a block, without KECCAK256. Pushes are data
      items, never operations. */
  predicate Trackable(item: Item) {
    !BreaksBlock(item, false) && item != Operation(KECCAK256) && (item.Operation? ==> !IsPush(item.op))
  }

  /** Facts over a class table describe a run. */
  ghost predicate Tracks(k: Facts, reps: seq<Expr>, c: Context, m: State) {
    WellFormed(reps) && SequencesUpTo(reps, k.sequence) && Describes(k, Values(c, reps), c, m)
  }

  /** Facts k1 over reps1 describe the machine after the item whenever k0 over reps0 described
      it before; a recorded store accounts for the change of the world. */
  ghost predicate StepSound(k0: Facts, reps0: seq<Expr>, item: Item, k1: Facts, reps1: seq<Expr>,
      op: Option<StoreOperation>) {
    forall c, m, m': State :: Tracks(k0, reps0, c, m) && ExecItem(c.env, item, m) == Some(m') ==>
      if op.None? then Tracks(k1, reps1, c, m') else StoreTracked(k1, reps1, op.value, c, m, m')
  }

  ghost predicate StoreTracked(k1: Facts, reps1: seq<Expr>, op: StoreOperation, c: Context, m: State, m': State) {
    && Tracks(k1, reps1, Extended(c, m'.world), m')
    && StoreOk(op, reps1)
    && m'.world == StoreWorld(m.world, op, reps1, Values(Extended(c, m'.world), reps1))
  }

  /** More facts about the same machine, given that the stack reaches down to height `depth`. */
  ghost predicate LearnsDownTo(depth: int, k0: Facts, reps0: seq<Expr>, k1: Facts, reps1: seq<Expr>) {
    forall c, m :: Tracks(k0, reps0, c, m) && 1 <= |c.stack| + depth ==> Tracks(k1, reps1, c, m)
  }

  lemma {:induction false} TracksMore(k: Facts, reps: seq<Expr>, more: seq<Expr>, c: Context, m: State)
    requires Tracks(k, reps, c, m) && WellFormed(more) && reps <= more && SequencesUpTo(more, k.sequence)
    ensures Tracks(k, more, c, m)
  {
    ValuesPrefix(c, reps, more);
    DescribesPrefix(k, Values(c, reps), Values(c, more), c, m);
  }

  /** The value of a class that denotes an expression. */
  lemma {:induction false} DenotedValue(c: Context, reps: seq<Expr>, e: Expr, id: Id)
    requires ContextOk(c) && WellFormed(reps) && Denotes(reps, e, id)
    ensures AllBelow(e.arguments, |reps|) && id < |reps|
    ensures Values(c, reps)[id] == EvalExpr(ValuationOf(c), e, Pick(Values(c, reps), e.arguments))
  {
    ContextIsSensible(c);
    assert ArgValues(ValuationOf(c), reps, e.arguments) == Pick(Values(c, reps), e.arguments);
    assert ExprValue(ValuationOf(c), reps, e) == Eval(ValuationOf(c), reps, id);
  }

  // ----- each kind of item -----

  lemma {:induction false} NoteSound(k: Facts, reps: seq<Expr>, more: seq<Expr>, h: int, id: Id)
    requires WellFormed(more) && reps <= more && SequencesUpTo(more, k.sequence)
    requires h <= k.height && h !in k.elements && Denotes(more, Expr(Undefined(h), [], 0), id)
    ensures LearnsDownTo(h, k, reps, Noted(k, h, id), more)
  {
    forall c, m | Tracks(k, reps, c, m) && 1 <= |c.stack| + h ensures Tracks(Noted(k, h, id), more, c, m) {
      TracksMore(k, reps, more, c, m);
      DenotedValue(c, more, Expr(Undefined(h), [], 0), id);
      NoteFacts(k, h, id, Values(c, more), c, m);
    }
  }

  lemma {:induction false} PushSound(k: Facts, reps: seq<Expr>, more: seq<Expr>, item: Item, id: Id)
    requires WellFormed(more) && reps <= more && SequencesUpTo(more, k.sequence)
    requires item.Data? && item.kind != Tag && Denotes(more, Expr(item, [], 0), id)
    ensures StepSound(k, reps, item, Pushed(k, id), more, None)
  {
    forall c, m, m': State | Tracks(k, reps, c, m) && ExecItem(c.env, item, m) == Some(m')
      ensures Tracks(Pushed(k, id), more, c, m')
    {
      TracksMore(k, reps, more, c, m);
      DenotedValue(c, more, Expr(item, [], 0), id);
      assert c.env.tag(item.data).Num?;
      PushFacts(k, id, Values(c, more), c, m);
    }
  }

  lemma {:induction false} PopSound(k: Facts, reps: seq<Expr>)
    ensures StepSound(k, reps, Operation(POP), Dropped(k, 1), reps, None)
  {
    forall c, m, m': State | Tracks(k, reps, c, m) && ExecItem(c.env, Operation(POP), m) == Some(m')
      ensures Tracks(Dropped(k, 1), reps, c, m')
    {
      DropFacts(k, 1, Values(c, reps), c, m);
    }
  }

  lemma {:induction false} StackDepth(k: Facts, reps: seq<Expr>, c: Context, m: State)
    requires Tracks(k, reps, c, m)
    ensures |m.stack| == |c.stack| + k.height && AllNums(m.stack) && ContextOk(c)
  {
  }

  lemma {:induction false} DupSound(k0: Facts, reps0: seq<Expr>, op: Opcode, k: Facts, reps: seq<Expr>)
    requires IsDup(op) && k.height == k0.height && k.height - (op - DUP1) in k.elements
    requires LearnsDownTo(k.height - (op - DUP1), k0, reps0, k, reps)
    ensures StepSound(k0, reps0, Operation(op), Pushed(k, k.elements[k.height - (op - DUP1)]), reps, None)
  {
    hide ExecItem, Tracks, LearnsDownTo, Exchanged, Pushed, Swapped;
    forall c, m, m': State | Tracks(k0, reps0, c, m) && ExecItem(c.env, Operation(op), m) == Some(m')
      ensures Tracks(Pushed(k, k.elements[k.height - (op - DUP1)]), reps, c, m')
    {
      DupExec(c.env, op, m, m');
      DupTracks(k0, reps0, k, reps, op - DUP1, c, m);
    }
  }

  lemma {:induction false} DupTracks(k0: Facts, reps0: seq<Expr>, k: Facts, reps: seq<Expr>, n: nat, c: Context,
      m: State)
    requires Tracks(k0, reps0, c, m) && n < |m.stack| && k.height == k0.height && k.height - n in k.elements
    requires LearnsDownTo(k.height - n, k0, reps0, k, reps)
    ensures Tracks(Pushed(k, k.elements[k.height - n]), reps, c, State(m.stack + [m.stack[|m.stack| - 1 - n]], m.world))
  {
    StackDepth(k0, reps0, c, m);
    DupFacts(k, n, Values(c, reps), c, m);
  }

  lemma {:induction false} SwapSound(k0: Facts, reps0: seq<Expr>, op: Opcode, k: Facts, reps: seq<Expr>)
    requires IsSwap(op) && k.height == k0.height && k.height in k.elements && k.height - (op - SWAP1 + 1) in k.elements
    requires LearnsDownTo(k.height - (op - SWAP1 + 1), k0, reps0, k, reps)
    ensures StepSound(k0, reps0, Operation(op), Exchanged(k, k.height, k.height - (op - SWAP1 + 1)), reps, None)
  {
    hide ExecItem, Tracks, LearnsDownTo, Exchanged, Pushed, Swapped;
    forall c, m, m': State | Tracks(k0, reps0, c, m) && ExecItem(c.env, Operation(op), m) == Some(m')
      ensures Tracks(Exchanged(k, k.height, k.height - (op - SWAP1 + 1)), reps, c, m')
    {
      SwapExec(c.env, op, m, m');
      SwapTracks(k0, reps0, k, reps, op - SWAP1 + 1, c, m);
    }
  }

  lemma {:induction false} SwapTracks(k0: Facts, reps0: seq<Expr>, k: Facts, reps: seq<Expr>, n: nat, c: Context,
      m: State)
    requires Tracks(k0, reps0, c, m) && 1 <= n < |m.stack| && k.height == k0.height && k.height in k.elements
    requires k.height - n in k.elements
    requires LearnsDownTo(k.height - n, k0, reps0, k, reps)
    ensures Tracks(Exchanged(k, k.height, k.height - n), reps, c, State(Swapped(m.stack, n), m.world))
  {
    StackDepth(k0, reps0, c, m);
    SwapFacts(k, n, Values(c, reps), c, m);
  }

  lemma {:induction false} LearnTwice(depth: int, k0: Facts, reps0: seq<Expr>, d1: int, k1: Facts, reps1: seq<Expr>,
      d2: int, k2: Facts, reps2: seq<Expr>)
    requires LearnsDownTo(d1, k0, reps0, k1, reps1) && LearnsDownTo(d2, k1, reps1, k2, reps2) && depth <= d1
    requires depth <= d2
    ensures LearnsDownTo(depth, k0, reps0, k2, reps2)
  {
    forall c, m | Tracks(k0, reps0, c, m) && 1 <= |c.stack| + depth ensures Tracks(k2, reps2, c, m) {
      assert Tracks(k1, reps1, c, m);
    }
  }

  /** Facts with the operands noted describe the machine, seen from the facts before. */
  lemma {:induction false} OperandsTracked(k0: Facts, reps0: seq<Expr>, k: Facts, reps: seq<Expr>, args: seq<Id>,
      c: Context, m: State)
    requires Tracks(k0, reps0, c, m) && |args| <= |m.stack| && k.height == k0.height
    requires LearnsDownTo(k.height - |args| + 1, k0, reps0, k, reps) && OperandsKnown(k.height, k.elements, args)
    ensures Tracks(k, reps, c, m) && AllBelow(args, |reps|) && AllNums(Top(m.stack, |args|))
    ensures NumsOf(Top(m.stack, |args|)) == Pick(Values(c, reps), args)
  {
    StackDepth(k0, reps0, c, m);
    OperandValues(k.height, k.elements, args, Values(c, reps), c.stack, m.stack);
  }

  lemma {:induction false} PickPrefix(vals: seq<Word>, more: seq<Word>, args: seq<Id>)
    requires vals <= more && AllBelow(args, |vals|)
    ensures AllBelow(args, |more|) && Pick(more, args) == Pick(vals, args)
  {
  }

  lemma {:induction false} PlainTracks(k: Facts, reps: seq<Expr>, more: seq<Expr>, op: Opcode, args: seq<Id>, id: Id,
      c: Context, m: State)
    requires Tracks(k, reps, c, m) && |args| <= |m.stack| && AllBelow(args, |reps|) && IsPure(op)
    requires WellFormed(more) && reps <= more && SequencesUpTo(more, k.sequence)
    requires Denotes(more, Expr(Operation(op), args, 0), id)
    ensures Tracks(Replaced(k, |args|, id), more, c,
                   State(m.stack[..|m.stack| - |args|] + [Num(c.env.apply(op, Pick(Values(c, reps), args), m.world.trace))], m.world))
  {
    hide Truncate, LinkedEnv, NumericWorld, StackMatches, StorageMatches, MemoryMatches, WellFormed, SequencesUpTo;
    hide Denotes;
    TracksMore(k, reps, more, c, m);
    ValuesPrefix(c, reps, more);
    PickPrefix(Values(c, reps), Values(c, more), args);
    DenotedValue(c, more, Expr(Operation(op), args, 0), id);
    ReplaceFacts(k, |args|, id, Values(c, more), c, m);
  }

  lemma {:induction false} PlainSound(k0: Facts, reps0: seq<Expr>, op: Opcode, args: seq<Id>, k: Facts,
      reps: seq<Expr>, more: seq<Expr>, id: Id)
    requires IsPure(op) && |args| == InfoOf(op).args && k.height == k0.height
    requires LearnsDownTo(k.height - |args| + 1, k0, reps0, k, reps) && OperandsKnown(k.height, k.elements, args)
    requires WellFormed(more) && reps <= more && SequencesUpTo(more, k.sequence)
    requires Denotes(more, Expr(Operation(op), args, 0), id)
    ensures StepSound(k0, reps0, Operation(op), Replaced(k, |args|, id), more, None)
  {
    hide ExecItem, Tracks, Replaced, LearnsDownTo, InfoOf, Top, NumsOf, Pick, IsPure, OperandsKnown, WellFormed;
    hide SequencesUpTo, Denotes;
    forall c, m, m': State | Tracks(k0, reps0, c, m) && ExecItem(c.env, Operation(op), m) == Some(m')
      ensures Tracks(Replaced(k, |args|, id), more, c, m')
    {
      PlainExec(c.env, op, m, m');
      OperandsTracked(k0, reps0, k, reps, args, c, m);
      PlainTracks(k, reps, more, op, args, id, c, m);
    }
  }

  /** Instructions that are allowed in a block but outside the machine's repertoire get stuck. */
  lemma {:induction false} StuckOp(env: Env, op: Opcode, m: State)
    requires Trackable(Operation(op)) && !IsPure(op) && !IsDup(op) && !IsSwap(op) && op != POP && !IsSequenced(op)
    ensures ExecItem(env, Operation(op), m).None?
  {
  }

  lemma {:induction false} StuckSound(k0: Facts, reps0: seq<Expr>, op: Opcode, k1: Facts, reps1: seq<Expr>)
    requires Trackable(Operation(op)) && !IsPure(op) && !IsDup(op) && !IsSwap(op) && op != POP && !IsSequenced(op)
    ensures StepSound(k0, reps0, Operation(op), k1, reps1, None)
  {
    forall c: Context, m: State, m': State
      ensures ExecItem(c.env, Operation(op), m) != Some(m')
    { StuckOp(c.env, op, m); }
  }

  // ----- loads -----

  lemma {:induction false} SloadKnownTracks(k: Facts, reps: seq<Expr>, slot: Id, c: Context, m: State)
    requires Tracks(k, reps, c, m) && |m.stack| >= 1 && slot in k.storage && slot < |reps|
    ensures Tracks(Replaced(k, 1, k.storage[slot]), reps, c,
                   State(m.stack[..|m.stack| - 1] + [m.world.storage[Values(c, reps)[slot]]], m.world))
  {
    hide Truncate, ContextOk, StackMatches, MemoryMatches, WellFormed, SequencesUpTo;
    assert SlotHolds(m.world.storage, Values(c, reps)[slot], Values(c, reps)[k.storage[slot]]);
    ReplaceFacts(k, 1, k.storage[slot], Values(c, reps), c, m);
  }

  lemma {:induction false} MloadKnownTracks(k: Facts, reps: seq<Expr>, slot: Id, c: Context, m: State)
    requires Tracks(k, reps, c, m) && |m.stack| >= 1 && slot in k.memory && slot < |reps|
    ensures ReadWord(m.world.memory, Values(c, reps)[slot]).Some?
    ensures Tracks(Replaced(k, 1, k.memory[slot]), reps, c,
                   State(m.stack[..|m.stack| - 1] + [ReadWord(m.world.memory, Values(c, reps)[slot]).value], m.world))
  {
    hide Truncate, ContextOk, StackMatches, StorageMatches, ReadWord, WellFormed, SequencesUpTo;
    assert AddressHolds(m.world.memory, Values(c, reps)[slot], Values(c, reps)[k.memory[slot]]);
    ReplaceFacts(k, 1, k.memory[slot], Values(c, reps), c, m);
  }

  /** A load class with the current sequence number has the value the machine would load. */
  lemma {:induction false} SloadValue(k: Facts, more: seq<Expr>, slot: Id, id: Id, c: Context, m: State)
    requires Tracks(k, more, c, m) && Denotes(more, Expr(Operation(SLOAD), [slot], k.sequence), id)
    ensures slot < |more| && id < |more| && SlotHolds(m.world.storage, Values(c, more)[slot], Values(c, more)[id])
  {
    hide StackMatches, StorageMatches, MemoryMatches, WellFormed, SequencesUpTo, Denotes, FactsOk, LinkedEnv, ReadWord;
    var e := Expr(Operation(SLOAD), [slot], k.sequence);
    DenotedValue(c, more, e, id);
    assert e.arguments[0] == slot;
    assert Pick(Values(c, more), e.arguments)[0] == Values(c, more)[slot];
    assert (k.sequence - 1) / 2 == |c.history| - 1;
  }

  lemma {:induction false} MloadValue(k: Facts, more: seq<Expr>, slot: Id, id: Id, c: Context, m: State)
    requires Tracks(k, more, c, m) && Denotes(more, Expr(Operation(MLOAD), [slot], k.sequence), id)
    ensures slot < |more| && id < |more| && AddressHolds(m.world.memory, Values(c, more)[slot], Values(c, more)[id])
  {
    hide StackMatches, StorageMatches, MemoryMatches, WellFormed, SequencesUpTo, Denotes, FactsOk, LinkedEnv, ReadWord;
    var e := Expr(Operation(MLOAD), [slot], k.sequence);
    DenotedValue(c, more, e, id);
    assert e.arguments[0] == slot;
    assert Pick(Values(c, more), e.arguments)[0] == Values(c, more)[slot];
    assert (k.sequence - 1) / 2 == |c.history| - 1;
    NumericRead(m.world, Values(c, more)[slot]);
  }

  lemma {:induction false} SloadNewTracks(k: Facts, reps: seq<Expr>, more: seq<Expr>, slot: Id, id: Id, c: Context,
      m: State)
    requires Tracks(k, reps, c, m) && |m.stack| >= 1 && slot < |reps|
    requires WellFormed(more) && reps <= more && SequencesUpTo(more, k.sequence)
    requires Denotes(more, Expr(Operation(SLOAD), [slot], k.sequence), id)
    ensures Tracks(Replaced(k, 1, id).(storage := k.storage[slot := id]), more, c,
                   State(m.stack[..|m.stack| - 1] + [m.world.storage[Values(c, reps)[slot]]], m.world))
  {
    hide Truncate, ContextOk, StackMatches, ReadWord, WellFormed, SequencesUpTo, Denotes;
    TracksMore(k, reps, more, c, m);
    ValuesPrefix(c, reps, more);
    SloadValue(k, more, slot, id, c, m);
    ReplaceFacts(k, 1, id, Values(c, more), c, m);
    SlotLoaded(k.storage, slot, id, Values(c, more), m.world.storage);
  }

  lemma {:induction false} MloadNewTracks(k: Facts, reps: seq<Expr>, more: seq<Expr>, slot: Id, id: Id, c: Context,
      m: State)
    requires Tracks(k, reps, c, m) && |m.stack| >= 1 && slot < |reps|
    requires WellFormed(more) && reps <= more && SequencesUpTo(more, k.sequence)
    requires Denotes(more, Expr(Operation(MLOAD), [slot], k.sequence), id)
    ensures ReadWord(m.world.memory, Values(c, reps)[slot]).Some?
    ensures Tracks(Replaced(k, 1, id).(memory := k.memory[slot := id]), more, c,
                   State(m.stack[..|m.stack| - 1] + [ReadWord(m.world.memory, Values(c, reps)[slot]).value], m.world))
  {
    hide Truncate, ContextOk, StackMatches, ReadWord, WellFormed, SequencesUpTo, Denotes;
    TracksMore(k, reps, more, c, m);
    ValuesPrefix(c, reps, more);
    MloadValue(k, more, slot, id, c, m);
    ReplaceFacts(k, 1, id, Values(c, more), c, m);
    AddressLoaded(k.memory, slot, id, Values(c, more), m.world.memory);
  }

  lemma {:induction false} TopIs(stack: seq<Value>, vals: seq<Word>, args: seq<Id>)
    requires |args| <= |stack| && AllBelow(args, |vals|) && AllNums(Top(stack, |args|))
    requires NumsOf(Top(stack, |args|)) == Pick(vals, args)
    ensures forall i :: 0 <= i < |args| ==> stack[|stack| - 1 - i] == Num(vals[args[i]])
  {
    forall i | 0 <= i < |args| ensures stack[|stack| - 1 - i] == Num(vals[args[i]]) {
      assert NumsOf(Top(stack, |args|))[i] == Top(stack, |args|)[i].word == stack[|stack| - 1 - i].word;
      assert Top(stack, |args|)[i].Num?;
      assert Pick(vals, args)[i] == vals[args[i]];
    }
  }

  lemma {:induction false} SloadSound(k0: Facts, reps0: seq<Expr>, slot: Id, k: Facts, reps: seq<Expr>,
      more: seq<Expr>, id: Id)
    requires k.height == k0.height && LearnsDownTo(k.height, k0, reps0, k, reps)
    requires OperandsKnown(k.height, k.elements, [slot])
    requires WellFormed(more) && reps <= more && SequencesUpTo(more, k.sequence)
    requires slot !in k.storage && Denotes(more, Expr(Operation(SLOAD), [slot], k.sequence), id)
    ensures StepSound(k0, reps0, Operation(SLOAD), Replaced(k, 1, id).(storage := k.storage[slot := id]), more, None)
  {
    hide ExecItem, Tracks, Replaced, LearnsDownTo, Top, NumsOf, Pick, OperandsKnown, WellFormed, SequencesUpTo, Denotes;
    hide ReadWord, ContextOk;
    forall c, m, m': State | Tracks(k0, reps0, c, m) && ExecItem(c.env, Operation(SLOAD), m) == Some(m')
      ensures Tracks(Replaced(k, 1, id).(storage := k.storage[slot := id]), more, c, m')
    {
      StackDepth(k0, reps0, c, m);
      SloadExec(c.env, m, m');
      OperandsTracked(k0, reps0, k, reps, [slot], c, m);
      assert [slot][0] < |reps|;
      TopIs(m.stack, Values(c, reps), [slot]);
      SloadNewTracks(k, reps, more, slot, id, c, m);
    }
  }

  lemma {:induction false} SloadKnownSound(k0: Facts, reps0: seq<Expr>, slot: Id, k: Facts, reps: seq<Expr>)
    requires k.height == k0.height && LearnsDownTo(k.height, k0, reps0, k, reps)
    requires OperandsKnown(k.height, k.elements, [slot])
    requires slot in k.storage
    ensures StepSound(k0, reps0, Operation(SLOAD), Replaced(k, 1, k.storage[slot]), reps, None)
  {
    hide ExecItem, Tracks, Replaced, LearnsDownTo, Top, NumsOf, Pick, OperandsKnown, WellFormed, SequencesUpTo, Denotes;
    hide ReadWord, ContextOk;
    forall c, m, m': State | Tracks(k0, reps0, c, m) && ExecItem(c.env, Operation(SLOAD), m) == Some(m')
      ensures Tracks(Replaced(k, 1, k.storage[slot]), reps, c, m')
    {
      StackDepth(k0, reps0, c, m);
      SloadExec(c.env, m, m');
      OperandsTracked(k0, reps0, k, reps, [slot], c, m);
      assert [slot][0] < |reps|;
      TopIs(m.stack, Values(c, reps), [slot]);
      SloadKnownTracks(k, reps, slot, c, m);
    }
  }

  lemma {:induction false} MloadSound(k0: Facts, reps0: seq<Expr>, slot: Id, k: Facts, reps: seq<Expr>,
      more: seq<Expr>, id: Id)
    requires k.height == k0.height && LearnsDownTo(k.height, k0, reps0, k, reps)
    requires OperandsKnown(k.height, k.elements, [slot])
    requires WellFormed(more) && reps <= more && SequencesUpTo(more, k.sequence)
    requires slot !in k.memory && Denotes(more, Expr(Operation(MLOAD), [slot], k.sequence), id)
    ensures StepSound(k0, reps0, Operation(MLOAD), Replaced(k, 1, id).(memory := k.memory[slot := id]), more, None)
  {
    hide ExecItem, Tracks, Replaced, LearnsDownTo, Top, NumsOf, Pick, OperandsKnown, WellFormed, SequencesUpTo, Denotes;
    hide ReadWord, ContextOk;
    forall c, m, m': State | Tracks(k0, reps0, c, m) && ExecItem(c.env, Operation(MLOAD), m) == Some(m')
      ensures Tracks(Replaced(k, 1, id).(memory := k.memory[slot := id]), more, c, m')
    {
      StackDepth(k0, reps0, c, m);
      MloadExec(c.env, m, m');
      OperandsTracked(k0, reps0, k, reps, [slot], c, m);
      assert [slot][0] < |reps|;
      TopIs(m.stack, Values(c, reps), [slot]);
      MloadNewTracks(k, reps, more, slot, id, c, m);
    }
  }

  lemma {:induction false} MloadKnownSound(k0: Facts, reps0: seq<Expr>, slot: Id, k: Facts, reps: seq<Expr>)
    requires k.height == k0.height && LearnsDownTo(k.height, k0, reps0, k, reps)
    requires OperandsKnown(k.height, k.elements, [slot])
    requires slot in k.memory
    ensures StepSound(k0, reps0, Operation(MLOAD), Replaced(k, 1, k.memory[slot]), reps, None)
  {
    hide ExecItem, Tracks, Replaced, LearnsDownTo, Top, NumsOf, Pick, OperandsKnown, WellFormed, SequencesUpTo, Denotes;
    hide ReadWord, ContextOk;
    forall c, m, m': State | Tracks(k0, reps0, c, m) && ExecItem(c.env, Operation(MLOAD), m) == Some(m')
      ensures Tracks(Replaced(k, 1, k.memory[slot]), reps, c, m')
    {
      StackDepth(k0, reps0, c, m);
      MloadExec(c.env, m, m');
      OperandsTracked(k0, reps0, k, reps, [slot], c, m);
      assert [slot][0] < |reps|;
      TopIs(m.stack, Values(c, reps), [slot]);
      MloadKnownTracks(k, reps, slot, c, m);
    }
  }

  // ----- stores -----

  /** Storage facts that survive a store: at slots known to be different, or with the stored value. */
  ghost predicate StorageSurvives(known: map<Id, Id>, kept: map<Id, Id>, slot: Id, value: Id, reps: seq<Expr>)
    requires WellFormed(reps) && slot < |reps|
  {
    forall s :: s in kept ==>
      s in known && kept[s] == known[s] && s < |reps| && (Different(reps, s, slot) || known[s] == value)
  }

  /** Memory facts that survive a store: at addresses known to be 32 bytes away. */
  ghost predicate MemorySurvives(known: map<Id, Id>, kept: map<Id, Id>, slot: Id, reps: seq<Expr>)
    requires WellFormed(reps) && slot < |reps|
  {
    forall s :: s in kept ==> s in known && kept[s] == known[s] && s < |reps| && DifferentBy32(reps, s, slot)
  }

  lemma {:induction false} NothingSurvives(known: map<Id, Id>, slot: Id, value: Id, reps: seq<Expr>)
    requires WellFormed(reps) && slot < |reps|
    ensures StorageSurvives(known, map[], slot, value, reps) && MemorySurvives(known, map[], slot, reps)
  {
    hide WellFormed;
  }

  /** One more fact that survives. */
  lemma {:induction false} SurvivesToo(known: map<Id, Id>, kept: map<Id, Id>, slot: Id, value: Id, reps: seq<Expr>,
      s: Id)
    requires WellFormed(reps) && slot < |reps| && s in known && s < |reps|
    ensures StorageSurvives(known, kept, slot, value, reps) && (Different(reps, s, slot) || known[s] == value) ==>
              StorageSurvives(known, kept[s := known[s]], slot, value, reps)
    ensures MemorySurvives(known, kept, slot, reps) && DifferentBy32(reps, s, slot) ==>
              MemorySurvives(known, kept[s := known[s]], slot, reps)
  {
    hide WellFormed, Different, DifferentBy32;
  }

  lemma {:induction false} SurvivesPrefix(known: map<Id, Id>, kept: map<Id, Id>, slot: Id, value: Id, reps: seq<Expr>,
      more: seq<Expr>)
    requires WellFormed(reps) && WellFormed(more) && reps <= more && slot < |reps|
    ensures StorageSurvives(known, kept, slot, value, reps) ==> StorageSurvives(known, kept, slot, value, more)
    ensures MemorySurvives(known, kept, slot, reps) ==> MemorySurvives(known, kept, slot, more)
  {
    hide WellFormed, FarApart;
    forall s: Id | s < |reps| ensures Different(reps, s, slot) ==> Different(more, s, slot)
      ensures DifferentBy32(reps, s, slot) ==> DifferentBy32(more, s, slot)
    {
      DifferentPrefix(reps, more, s, slot);
    }
  }

  lemma {:induction false} DifferentPrefix(reps: seq<Expr>, more: seq<Expr>, a: Id, b: Id)
    requires WellFormed(reps) && WellFormed(more) && reps <= more && a < |reps| && b < |reps|
    ensures Different(reps, a, b) ==> Different(more, a, b)
    ensures DifferentBy32(reps, a, b) ==> DifferentBy32(more, a, b)
  {
    hide WellFormed, FarApart, Sensible;
    forall v ensures Eval(v, more, a) == Eval(v, reps, a) && Eval(v, more, b) == Eval(v, reps, b) {
      EvalPrefix(v, reps, more, a);
      EvalPrefix(v, reps, more, b);
    }
  }

  lemma {:induction false} SurvivorsKept(known: map<Id, Id>, kept: map<Id, Id>, slot: Id, value: Id, reps: seq<Expr>,
      c: Context)
    requires ContextOk(c) && WellFormed(reps) && slot < |reps| && ClassMapOk(known, |reps|)
    ensures StorageSurvives(known, kept, slot, value, reps) ==> StorageKept(known, kept, slot, value, Values(c, reps))
    ensures MemorySurvives(known, kept, slot, reps) ==> MemoryKept(known, kept, slot, Values(c, reps))
  {
    hide ContextOk, WellFormed, FarApart;
    ContextIsSensible(c);
  }

  /** After a store the world is longer and so is the class table. */
  lemma {:induction false} StoreTracks(k1: Facts, reps: seq<Expr>, more: seq<Expr>, c: Context, w: World, m': State)
    requires WellFormed(reps) && WellFormed(more) && reps <= more && |c.history| >= 1
    requires SequencesUpTo(reps, 2 * |c.history| - 1) && SequencesUpTo(more, k1.sequence)
    requires Describes(k1, Values(c, reps), Extended(c, w), m')
    ensures Tracks(k1, more, Extended(c, w), m')
    ensures Values(c, reps) <= Values(Extended(c, w), more)
  {
    hide Describes, WellFormed, SequencesUpTo;
    ValuesExtended(c, w, reps);
    ValuesPrefix(Extended(c, w), reps, more);
    DescribesPrefix(k1, Values(c, reps), Values(Extended(c, w), more), Extended(c, w), m');
  }

  lemma {:induction false} SstoreTracks(k: Facts, kept: map<Id, Id>, slot: Id, value: Id, reps: seq<Expr>,
      more: seq<Expr>, op: StoreOperation, c: Context, m: State)
    requires Tracks(k, reps, c, m) && |m.stack| >= 2 && OperandsKnown(k.height, k.elements, [slot, value])
    requires slot < |reps| && value < |reps| && StorageSurvives(k.storage, kept, slot, value, reps)
    requires WellFormed(more) && reps <= more && SequencesUpTo(more, k.sequence + 2)
    requires StoreOk(op, more) && op.target == InStorage && more[op.expression].arguments == [slot, value]
    ensures var w := ApplyStore(m.world, InStorage, Values(c, reps)[slot], Values(c, reps)[value]);
            StoreTracked(Stored(k, kept[slot := value], k.memory), more, op, c, m, State(m.stack[..|m.stack| - 2], w))
  {
    hide StackMatches, StorageMatches, MemoryMatches, OperandsKnown, WellFormed, SequencesUpTo, StorageSurvives;
    hide ContextOk, Truncate, StorageKept;
    var vals := Values(c, reps);
    var w := ApplyStore(m.world, InStorage, vals[slot], vals[value]);
    SurvivorsKept(k.storage, kept, slot, value, reps, c);
    StorageStoreFacts(k, kept, slot, value, vals, c, m);
    HistoryNonEmpty(c);
    StoreTracks(Stored(k, kept[slot := value], k.memory), reps, more, c, w, State(m.stack[..|m.stack| - 2], w));
  }

  lemma {:induction false} MstoreTracks(k: Facts, kept: map<Id, Id>, slot: Id, value: Id, reps: seq<Expr>,
      more: seq<Expr>, op: StoreOperation, c: Context, m: State)
    requires Tracks(k, reps, c, m) && |m.stack| >= 2 && OperandsKnown(k.height, k.elements, [slot, value])
    requires slot < |reps| && value < |reps| && MemorySurvives(k.memory, kept, slot, reps)
    requires WellFormed(more) && reps <= more && SequencesUpTo(more, k.sequence + 2)
    requires StoreOk(op, more) && op.target == InMemory && more[op.expression].arguments == [slot, value]
    ensures var w := ApplyStore(m.world, InMemory, Values(c, reps)[slot], Values(c, reps)[value]);
            StoreTracked(Stored(k, k.storage, kept[slot := value]), more, op, c, m, State(m.stack[..|m.stack| - 2], w))
  {
    hide StackMatches, StorageMatches, MemoryMatches, OperandsKnown, WellFormed, SequencesUpTo, MemorySurvives;
    hide ContextOk, Truncate, MemoryKept, WriteWord;
    var vals := Values(c, reps);
    var w := ApplyStore(m.world, InMemory, vals[slot], vals[value]);
    SurvivorsKept(k.memory, kept, slot, value, reps, c);
    MemoryStoreFacts(k, kept, slot, value, vals, c, m);
    HistoryNonEmpty(c);
    StoreTracks(Stored(k, k.storage, kept[slot := value]), reps, more, c, w, State(m.stack[..|m.stack| - 2], w));
  }

  lemma {:induction false} HistoryNonEmpty(c: Context)
    requires ContextOk(c)
    ensures |c.history| >= 1
  {
  }

  lemma {:induction false} SstoreSound(k0: Facts, reps0: seq<Expr>, k: Facts, reps: seq<Expr>, mid: seq<Expr>,
      more: seq<Expr>,
                    kept: map<Id, Id>, slot: Id, value: Id, op: StoreOperation)
    requires k.height == k0.height && LearnsDownTo(k.height - 1, k0, reps0, k, reps)
    requires OperandsKnown(k.height, k.elements, [slot, value])
    requires WellFormed(mid) && reps <= mid && SequencesUpTo(mid, k.sequence) && slot < |mid| && value < |mid|
    requires StorageSurvives(k.storage, kept, slot, value, mid)
    requires WellFormed(more) && mid <= more && SequencesUpTo(more, k.sequence + 2)
    requires StoreOk(op, more) && op.target == InStorage && more[op.expression].arguments == [slot, value]
    ensures StepSound(k0, reps0, Operation(SSTORE), Stored(k, kept[slot := value], k.memory), more, Some(op))
  {
    hide ExecItem, Tracks, Stored, LearnsDownTo, Top, NumsOf, Pick, OperandsKnown, WellFormed, SequencesUpTo;
    hide StoreTracked, StoreOk, StorageSurvives, ContextOk;
    forall c, m, m': State | Tracks(k0, reps0, c, m) && ExecItem(c.env, Operation(SSTORE), m) == Some(m')
      ensures StoreTracked(Stored(k, kept[slot := value], k.memory), more, op, c, m, m')
    {
      StackDepth(k0, reps0, c, m);
      SstoreExec(c.env, m, m');
      OperandsSpread(k0, reps0, k, reps, mid, slot, value, c, m);
      SstoreTracks(k, kept, slot, value, mid, more, op, c, m);
    }
  }

  lemma {:induction false} MstoreSound(k0: Facts, reps0: seq<Expr>, k: Facts, reps: seq<Expr>, mid: seq<Expr>,
      more: seq<Expr>,
                    kept: map<Id, Id>, slot: Id, value: Id, op: StoreOperation)
    requires k.height == k0.height && LearnsDownTo(k.height - 1, k0, reps0, k, reps)
    requires OperandsKnown(k.height, k.elements, [slot, value])
    requires WellFormed(mid) && reps <= mid && SequencesUpTo(mid, k.sequence) && slot < |mid| && value < |mid|
    requires MemorySurvives(k.memory, kept, slot, mid)
    requires WellFormed(more) && mid <= more && SequencesUpTo(more, k.sequence + 2)
    requires StoreOk(op, more) && op.target == InMemory && more[op.expression].arguments == [slot, value]
    ensures StepSound(k0, reps0, Operation(MSTORE), Stored(k, k.storage, kept[slot := value]), more, Some(op))
  {
    hide ExecItem, Tracks, Stored, LearnsDownTo, Top, NumsOf, Pick, OperandsKnown, WellFormed, SequencesUpTo;
    hide StoreTracked, StoreOk, MemorySurvives, ContextOk, WriteWord;
    forall c, m, m': State | Tracks(k0, reps0, c, m) && ExecItem(c.env, Operation(MSTORE), m) == Some(m')
      ensures StoreTracked(Stored(k, k.storage, kept[slot := value]), more, op, c, m, m')
    {
      StackDepth(k0, reps0, c, m);
      MstoreExec(c.env, m, m');
      OperandsSpread(k0, reps0, k, reps, mid, slot, value, c, m);
      MstoreTracks(k, kept, slot, value, mid, more, op, c, m);
    }
  }

  /** The two operands of a store, seen through a longer class table. */
  lemma {:induction false} OperandsSpread(k0: Facts, reps0: seq<Expr>, k: Facts, reps: seq<Expr>, mid: seq<Expr>,
      slot: Id, value: Id, c: Context, m: State)
    requires Tracks(k0, reps0, c, m) && |m.stack| >= 2 && k.height == k0.height
    requires LearnsDownTo(k.height - 1, k0, reps0, k, reps) && OperandsKnown(k.height, k.elements, [slot, value])
    requires WellFormed(mid) && reps <= mid && SequencesUpTo(mid, k.sequence) && slot < |mid| && value < |mid|
    ensures Tracks(k, mid, c, m)
    ensures m.stack[|m.stack| - 1] == Num(Values(c, mid)[slot]) && m.stack[|m.stack| - 2] == Num(Values(c, mid)[value])
  {
    hide Tracks, LearnsDownTo, OperandsKnown, WellFormed, SequencesUpTo;
    OperandsTracked(k0, reps0, k, reps, [slot, value], c, m);
    TracksWellFormed(k, reps, c, m);
    TopIs(m.stack, Values(c, reps), [slot, value]);
    assert [slot, value][0] < |reps| && [slot, value][1] < |reps|;
    TracksMore(k, reps, mid, c, m);
    ValuesPrefix(c, reps, mid);
  }

  lemma {:induction false} TracksWellFormed(k: Facts, reps: seq<Expr>, c: Context, m: State)
    requires Tracks(k, reps, c, m)
    ensures WellFormed(reps)
  {
  }

  /** A store of what is known to be there changes nothing. */
  lemma {:induction false} SstoreKnownSound(k0: Facts, reps0: seq<Expr>, k: Facts, reps: seq<Expr>, slot: Id, value: Id)
    requires k.height == k0.height && LearnsDownTo(k.height - 1, k0, reps0, k, reps)
    requires OperandsKnown(k.height, k.elements, [slot, value])
    requires WellFormed(reps) && SequencesUpTo(reps, k.sequence) && slot < |reps| && value < |reps|
    requires slot in k.storage && k.storage[slot] == value
    ensures StepSound(k0, reps0, Operation(SSTORE), Dropped(k, 2), reps, None)
  {
    hide ExecItem, Tracks, Dropped, LearnsDownTo, OperandsKnown, WellFormed, SequencesUpTo, ContextOk;
    forall c, m, m': State | Tracks(k0, reps0, c, m) && ExecItem(c.env, Operation(SSTORE), m) == Some(m')
      ensures Tracks(Dropped(k, 2), reps, c, m')
    {
      StackDepth(k0, reps0, c, m);
      SstoreExec(c.env, m, m');
      OperandsSpread(k0, reps0, k, reps, reps, slot, value, c, m);
      KnownSlot(k, reps, slot, c, m);
      DropTracks(k, reps, 2, c, m);
    }
  }

  lemma {:induction false} MstoreKnownSound(k0: Facts, reps0: seq<Expr>, k: Facts, reps: seq<Expr>, slot: Id, value: Id)
    requires k.height == k0.height && LearnsDownTo(k.height - 1, k0, reps0, k, reps)
    requires OperandsKnown(k.height, k.elements, [slot, value])
    requires WellFormed(reps) && SequencesUpTo(reps, k.sequence) && slot < |reps| && value < |reps|
    requires slot in k.memory && k.memory[slot] == value
    ensures StepSound(k0, reps0, Operation(MSTORE), Dropped(k, 2), reps, None)
  {
    hide ExecItem, Tracks, Dropped, LearnsDownTo, OperandsKnown, WellFormed, SequencesUpTo, ContextOk, WriteWord;
    hide ReadWord;
    forall c, m, m': State | Tracks(k0, reps0, c, m) && ExecItem(c.env, Operation(MSTORE), m) == Some(m')
      ensures Tracks(Dropped(k, 2), reps, c, m')
    {
      StackDepth(k0, reps0, c, m);
      MstoreExec(c.env, m, m');
      OperandsSpread(k0, reps0, k, reps, reps, slot, value, c, m);
      KnownAddress(k, reps, slot, c, m);
      WriteSame(m.world.memory, Values(c, reps)[slot], Num(Values(c, reps)[value]));
      DropTracks(k, reps, 2, c, m);
    }
  }

  lemma {:induction false} KnownSlot(k: Facts, reps: seq<Expr>, slot: Id, c: Context, m: State)
    requires Tracks(k, reps, c, m) && slot in k.storage && slot < |reps| && k.storage[slot] < |reps|
    ensures m.world.storage[Values(c, reps)[slot]] == Num(Values(c, reps)[k.storage[slot]])
    ensures m.world.storage[Values(c, reps)[slot] := Num(Values(c, reps)[k.storage[slot]])] == m.world.storage
  {
    hide ContextOk, StackMatches, MemoryMatches, WellFormed, SequencesUpTo;
    assert SlotHolds(m.world.storage, Values(c, reps)[slot], Values(c, reps)[k.storage[slot]]);
  }

  lemma {:induction false} KnownAddress(k: Facts, reps: seq<Expr>, slot: Id, c: Context, m: State)
    requires Tracks(k, reps, c, m) && slot in k.memory && slot < |reps| && k.memory[slot] < |reps|
    ensures ReadWord(m.world.memory, Values(c, reps)[slot]) == Some(Num(Values(c, reps)[k.memory[slot]]))
  {
    hide ContextOk, StackMatches, StorageMatches, WellFormed, SequencesUpTo, ReadWord;
    assert AddressHolds(m.world.memory, Values(c, reps)[slot], Values(c, reps)[k.memory[slot]]);
  }

  lemma {:induction false} DropTracks(k: Facts, reps: seq<Expr>, n: nat, c: Context, m: State)
    requires Tracks(k, reps, c, m) && n <= |m.stack|
    ensures Tracks(Dropped(k, n), reps, c, State(m.stack[..|m.stack| - n], m.world))
  {
    hide ContextOk, StackMatches, StorageMatches, MemoryMatches, WellFormed, SequencesUpTo, Truncate;
    DropFacts(k, n, Values(c, reps), c, m);
  }
}
