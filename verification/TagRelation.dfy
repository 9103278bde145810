/** States that differ only in which of several equivalent code tags they hold. */
module TagRelation {
  import opened Words
  import opened Instructions
  import opened Items
  import opened Machine
  import opened Segments

  /** Tags with the same root are equivalent. */
  type Roots = Word -> Word

  ghost predicate SameValue(rt: Roots, v: Value, v': Value) {
    match v
    case Num(_) => v' == v
    case CodeRef(t) => v'.CodeRef? && rt(v'.tag) == rt(t)
  }

  ghost predicate SameCell(rt: Roots, c: Cell, c': Cell) {
    match c
    case Byte(_) => c' == c
    case RefPart(t, i) => c'.RefPart? && c'.index == i && rt(c'.tag) == rt(t)
  }

  ghost predicate SameStack(rt: Roots, a: seq<Value>, b: seq<Value>) {
    |a| == |b| && forall i :: 0 <= i < |a| ==> SameValue(rt, a[i], b[i])
  }

  ghost predicate SameStorage(rt: Roots, a: Storage, b: Storage) { forall k: Word :: SameValue(rt, a[k], b[k]) }

  ghost predicate SameMemory(rt: Roots, a: Memory, b: Memory) { forall k: Word :: SameCell(rt, a[k], b[k]) }

  ghost predicate SameWorld(rt: Roots, a: World, b: World) {
    SameStorage(rt, a.storage, b.storage) && SameMemory(rt, a.memory, b.memory) && a.trace == b.trace
  }

  ghost predicate SameState(rt: Roots, a: State, b: State) {
    SameStack(rt, a.stack, b.stack) && SameWorld(rt, a.world, b.world)
  }

  /** The same item, or pushes of equivalent tags. */
  predicate SameItem(rt: Roots, a: Item, b: Item) {
    a == b || (IsPushTag(a) && IsPushTag(b) && rt(a.data) == rt(b.data))
  }

  /** Code references are opaque: only their identity counts. */
  ghost predicate OpaqueTags(env: Env) { forall t: Word :: env.tag(t) == CodeRef(t) }

  // ----- what the world sees is the same -----

  lemma {:induction false} SameView(rt: Roots, a: World, b: World)
    requires SameWorld(rt, a, b)
    ensures ViewOf(a) == ViewOf(b)
  {
    var x, y := ViewOf(a), ViewOf(b);
    forall k: Word ensures x.storage[k] == y.storage[k] { assert SameValue(rt, a.storage[k], b.storage[k]); }
    forall k: Word ensures x.memory[k] == y.memory[k] { assert SameCell(rt, a.memory[k], b.memory[k]); }
    assert x.storage == y.storage && x.memory == y.memory;
  }

  lemma {:induction false} SamePatch(rt: Roots, a: World, b: World, e: Effect, event: Event)
    requires SameWorld(rt, a, b)
    ensures SameWorld(rt, PatchWorld(a, e, event), PatchWorld(b, e, event))
  {
    var x, y := PatchWorld(a, e, event), PatchWorld(b, e, event);
    forall k: Word
      ensures SameValue(rt, x.storage[k], y.storage[k])
    { assert SameValue(rt, a.storage[k], b.storage[k]); }
    forall k: Word ensures SameCell(rt, x.memory[k], y.memory[k]) { assert SameCell(rt, a.memory[k], b.memory[k]); }
  }

  // ----- memory words -----

  lemma {:induction false} SameRead(rt: Roots, a: Memory, b: Memory, at: Word)
    requires SameMemory(rt, a, b)
    ensures ReadWord(a, at).Some? <==> ReadWord(b, at).Some?
    ensures ReadWord(a, at).Some? ==> SameValue(rt, ReadWord(a, at).value, ReadWord(b, at).value)
  {
    hide FromBytes;
    var x, y := CellsAt(a, at), CellsAt(b, at);
    forall i | 0 <= i < 32
      ensures SameCell(rt, x[i], y[i])
    { assert SameCell(rt, a[AddressAt(at, i)], b[AddressAt(at, i)]); }
    assert AllBytes(x) <==> AllBytes(y) by { BytesAlike(rt, x, y); }
    if AllBytes(x) {
      assert Octets(x) == Octets(y);
    } else {
      ReferencesAlike(rt, x, y);
      assert SameCell(rt, x[0], y[0]);
    }
  }

  lemma {:induction false} BytesAlike(rt: Roots, x: seq<Cell>, y: seq<Cell>)
    requires |x| == |y| && forall i :: 0 <= i < |x| ==> SameCell(rt, x[i], y[i])
    ensures AllBytes(x) <==> AllBytes(y)
  {
    forall i | 0 <= i < |x| ensures x[i].Byte? <==> y[i].Byte? { assert SameCell(rt, x[i], y[i]); }
  }

  lemma {:induction false} ReferencesAlike(rt: Roots, x: seq<Cell>, y: seq<Cell>)
    requires |x| == |y| && forall i :: 0 <= i < |x| ==> SameCell(rt, x[i], y[i])
    ensures IsReference(x) <==> IsReference(y)
  {
    forall i | 0 <= i < |x|
      ensures (x[i].RefPart? && x[i].index == i) <==> (y[i].RefPart? && y[i].index == i)
    {
      assert SameCell(rt, x[i], y[i]);
    }
  }

  lemma {:induction false} SameWrite(rt: Roots, a: Memory, b: Memory, at: Word, v: Value, v': Value)
    requires SameMemory(rt, a, b) && SameValue(rt, v, v')
    ensures SameMemory(rt, WriteWord(a, at, v), WriteWord(b, at, v'))
  {
    hide BytesOf;
    var x, y := WriteWord(a, at, v), WriteWord(b, at, v');
    forall k: Word ensures SameCell(rt, x[k], y[k]) { assert SameCell(rt, a[k], b[k]); }
  }

  // ----- one item -----

  /** The results of an item from related states are related. */
  ghost predicate SameResult(rt: Roots, a: Option<State>, b: Option<State>) {
    (a.Some? <==> b.Some?) && (a.Some? ==> SameState(rt, a.value, b.value))
  }

  lemma {:induction false} SamePush(rt: Roots, a: seq<Value>, b: seq<Value>, v: Value, v': Value)
    requires SameStack(rt, a, b) && SameValue(rt, v, v')
    ensures SameStack(rt, a + [v], b + [v'])
  {
  }

  lemma {:induction false} SameNums(rt: Roots, a: seq<Value>, b: seq<Value>)
    requires SameStack(rt, a, b)
    ensures AllNums(a) <==> AllNums(b)
    ensures AllNums(a) ==> NumsOf(a) == NumsOf(b)
  {
    forall i | 0 <= i < |a| ensures a[i].Num? <==> b[i].Num? { assert SameValue(rt, a[i], b[i]); }
    if AllNums(a) {
      forall i | 0 <= i < |a| ensures NumsOf(a)[i] == NumsOf(b)[i] { assert SameValue(rt, a[i], b[i]); }
    }
  }

  lemma {:induction false} SamePerform(rt: Roots, env: Env, op: Opcode, args: seq<Value>, args': seq<Value>,
      rest: seq<Value>, rest': seq<Value>, w: World, w': World)
    requires SameStack(rt, args, args') && SameStack(rt, rest, rest') && SameWorld(rt, w, w')
    requires |args| == InfoOf(op).args
    ensures SameResult(rt, Perform(env, op, args, rest, w), Perform(env, op, args', rest', w'))
  {
    if op == SLOAD || op == SSTORE || op == MLOAD || op == MSTORE {
      SameAccess(rt, env, op, args, args', rest, rest', w, w');
    } else {
      SameOther(rt, env, op, args, args', rest, rest', w, w');
    }
  }

  lemma {:induction false} SameAccess(rt: Roots, env: Env, op: Opcode, args: seq<Value>, args': seq<Value>,
      rest: seq<Value>, rest': seq<Value>, w: World, w': World)
    requires SameStack(rt, args, args') && SameStack(rt, rest, rest') && SameWorld(rt, w, w')
    requires |args| == InfoOf(op).args
    requires op == SLOAD || op == SSTORE || op == MLOAD || op == MSTORE
    ensures SameResult(rt, Perform(env, op, args, rest, w), Perform(env, op, args', rest', w'))
  {
    hide ReadWord, WriteWord;
    assert SameValue(rt, args[0], args'[0]);
    if args[0].Num? {
      var a := args[0].word;
      if op == SLOAD {
        SamePush(rt, rest, rest', w.storage[a], w'.storage[a]);
      } else if op == MLOAD {
        SameRead(rt, w.memory, w'.memory, a);
        if ReadWord(w.memory, a).Some? { SamePush(rt, rest, rest', ReadWord(w.memory, a).value, ReadWord(w'.memory, a).value); }
      } else if op == MSTORE {
        SameWrite(rt, w.memory, w'.memory, a, args[1], args'[1]);
      }
    }
  }

  lemma {:induction false} SameOther(rt: Roots, env: Env, op: Opcode, args: seq<Value>, args': seq<Value>,
      rest: seq<Value>, rest': seq<Value>, w: World, w': World)
    requires SameStack(rt, args, args') && SameStack(rt, rest, rest') && SameWorld(rt, w, w')
    requires |args| == InfoOf(op).args
    requires op != SLOAD && op != SSTORE && op != MLOAD && op != MSTORE
    ensures SameResult(rt, Perform(env, op, args, rest, w), Perform(env, op, args', rest', w'))
  {
    hide SameWorld, PatchWorld, ViewOf, IsArithmetic, IsEnvironment, IsEffect;
    SameNums(rt, args, args');
    SameTrace(rt, w, w');
    if AllNums(args) && (IsArithmetic(op) || IsEnvironment(op)) {
      SamePush(rt, rest, rest', Num(env.apply(op, NumsOf(args), w.trace)), Num(env.apply(op, NumsOf(args), w.trace)));
    } else if AllNums(args) && IsEffect(op) {
      SameView(rt, w, w');
      var e := env.effect(op, NumsOf(args), ViewOf(w));
      SamePatch(rt, w, w', e, Event(op, NumsOf(args)));
      SamePush(rt, rest, rest', Num(e.result), Num(e.result));
    }
  }

  lemma {:induction false} SameTrace(rt: Roots, w: World, w': World)
    requires SameWorld(rt, w, w')
    ensures w.trace == w'.trace
  {
  }

  lemma {:induction false} SameTop(rt: Roots, a: seq<Value>, b: seq<Value>, n: nat)
    requires SameStack(rt, a, b) && n <= |a|
    ensures SameStack(rt, Top(a, n), Top(b, n)) && SameStack(rt, a[..|a| - n], b[..|b| - n])
  {
  }

  lemma {:induction false} SameExecOp(rt: Roots, env: Env, op: Opcode, s: State, s': State)
    requires SameState(rt, s, s')
    ensures SameResult(rt, ExecOp(env, op, s), ExecOp(env, op, s'))
  {
    hide SameWorld, Perform, InfoOf;
    var n := |s.stack|;
    if n >= InfoOf(op).args {
      if op == POP || IsDup(op) || IsSwap(op) {
        SameShuffle(rt, env, op, s, s');
      } else {
        SameTop(rt, s.stack, s'.stack, InfoOf(op).args);
        SamePerform(rt, env, op, Top(s.stack, InfoOf(op).args), Top(s'.stack, InfoOf(op).args),
                    s.stack[..n - InfoOf(op).args], s'.stack[..n - InfoOf(op).args], s.world, s'.world);
      }
    }
  }

  lemma {:induction false} SameShuffle(rt: Roots, env: Env, op: Opcode, s: State, s': State)
    requires SameState(rt, s, s') && InfoOf(op).args <= |s.stack| && (op == POP || IsDup(op) || IsSwap(op))
    ensures SameResult(rt, ExecOp(env, op, s), ExecOp(env, op, s'))
  {
    hide SameWorld, Perform, SameValue;
  }

  lemma {:induction false} SameExec(rt: Roots, env: Env, item: Item, item': Item, s: State, s': State)
    requires OpaqueTags(env) && SameState(rt, s, s') && SameItem(rt, item, item')
    ensures SameResult(rt, ExecItem(env, item, s), ExecItem(env, item', s'))
  {
    hide SameWorld, ExecOp;
    if item.Operation? {
      SameExecOp(rt, env, item.op, s, s');
    } else if item.Data? && item.kind != Tag {
      SamePush(rt, s.stack, s'.stack, PushedValue(env, item.kind, item.data), PushedValue(env, item'.kind, item'.data));
    }
  }

  // ----- control flow -----

  ghost predicate SameFlow(rt: Roots, f: Flow, f': Flow) {
    match f
    case Next(s) => f'.Next? && SameState(rt, s, f'.state)
    case Jump(to, s) => f'.Jump? && SameValue(rt, to, f'.to) && SameState(rt, s, f'.after)
    case Halt(_) => f' == f
    case Stuck => f'.Stuck?
  }

  lemma {:induction false} SameRange(rt: Roots, a: Memory, b: Memory, offset: Word, size: nat)
    requires SameMemory(rt, a, b)
    ensures MemoryRange(a, offset, size) == MemoryRange(b, offset, size)
  {
    var x := seq(size, i requires 0 <= i < size => a[(offset + i) % MODULUS]);
    var y := seq(size, i requires 0 <= i < size => b[(offset + i) % MODULUS]);
    forall i | 0 <= i < size
      ensures SameCell(rt, x[i], y[i])
    { assert SameCell(rt, a[(offset + i) % MODULUS], b[(offset + i) % MODULUS]); }
    BytesAlike(rt, x, y);
    if AllBytes(x) {
      forall i | 0 <= i < size ensures Octets(x)[i] == Octets(y)[i] { assert SameCell(rt, x[i], y[i]); }
      assert Octets(x) == Octets(y);
    }
  }

  lemma {:induction false} SameControl(rt: Roots, env: Env, op: Opcode, s: State, s': State)
    requires SameState(rt, s, s') && AltersControlFlow(op) && InfoOf(op).args <= |s.stack|
    ensures SameFlow(rt, StepItem(env, Operation(op), s), StepItem(env, Operation(op), s'))
  {
    hide MemoryRange, ViewOf, ExecItem, SameStorage, SameMemory;
    SameView(rt, s.world, s'.world);
    var n := |s.stack|;
    if InfoOf(op).args >= 1 { assert SameValue(rt, s.stack[n - 1], s'.stack[n - 1]); SameTop(rt, s.stack, s'.stack, 1); }
    if InfoOf(op).args >= 2 {
      assert SameValue(rt, s.stack[n - 2], s'.stack[n - 2]);
      SameTop(rt, s.stack, s'.stack, 2);
      if s.stack[n - 1].Num? && s.stack[n - 2].Num? {
        SameRange(rt, s.world.memory, s'.world.memory, s.stack[n - 1].word, s.stack[n - 2].word);
      }
    }
  }

  /** From related states, matching items do related things. */
  lemma {:induction false} SameStep(rt: Roots, env: Env, item: Item, item': Item, s: State, s': State)
    requires OpaqueTags(env) && SameState(rt, s, s') && SameItem(rt, item, item')
    ensures SameFlow(rt, StepItem(env, item, s), StepItem(env, item', s'))
  {
    hide ExecItem, SameWorld, ReturnFlow, JumpiFlow, DestroyFlow, InfoOf;
    if item.Operation? && AltersControlFlow(item.op) {
      if InfoOf(item.op).args <= |s.stack| { SameControl(rt, env, item.op, s, s'); }
    } else {
      SameExec(rt, env, item, item', s, s');
    }
  }
}
