/** How one item changes the facts, and why they stay true. */
module Steps {
  import opened Words
  import opened Instructions
  import opened Arithmetic
  import opened Items
  import opened Machine
  import opened Rules
  import opened Expressions
  import opened Classes
  import opened Knowledge

  function Truncate(elements: map<int, Id>, height: int): map<int, Id> {
    map h | h in elements && h <= height :: elements[h]
  }

  function Dropped(k: Facts, n: nat): Facts {
    k.(height := k.height - n, elements := Truncate(k.elements, k.height - n))
  }

  function Pushed(k: Facts, id: Id): Facts {
    k.(height := k.height + 1, elements := k.elements[k.height + 1 := id])
  }

  function Noted(k: Facts, h: int, id: Id): Facts { k.(elements := k.elements[h := id]) }

  function Exchange(elements: map<int, Id>, a: int, b: int): map<int, Id>
    requires a in elements && b in elements
  {
    elements[a := elements[b]][b := elements[a]]
  }

  function Exchanged(k: Facts, a: int, b: int): Facts
    requires a in k.elements && b in k.elements
  {
    k.(elements := Exchange(k.elements, a, b))
  }

  /** After consuming n operands and pushing a class. */
  function Replaced(k: Facts, n: nat, id: Id): Facts { Pushed(Dropped(k, n), id) }

  // ----- the stack -----

  lemma {:induction false} DropStack(height: int, elements: map<int, Id>, n: nat, vals: seq<Word>, start: seq<Value>,
      stack: seq<Value>)
    requires ElementsOk(elements, height, |vals|) && StackMatches(height, elements, vals, start, stack) && n <= |stack|
    ensures ElementsOk(Truncate(elements, height - n), height - n, |vals|)
    ensures StackMatches(height - n, Truncate(elements, height - n), vals, start, stack[..|stack| - n])
  {
    var s, es := stack[..|stack| - n], Truncate(elements, height - n);
    forall h | h in es ensures Holds(start, s, h, vals[es[h]]) { assert Holds(start, stack, h, vals[elements[h]]); }
    forall h | h !in es && 1 <= |start| + h <= |s| ensures Untouched(start, s, h) {
      assert h !in elements;
      assert Untouched(start, stack, h);
    }
  }

  lemma {:induction false} PushStack(height: int, elements: map<int, Id>, id: Id, vals: seq<Word>, start: seq<Value>,
      stack: seq<Value>)
    requires ElementsOk(elements, height, |vals|) && StackMatches(height, elements, vals, start, stack) && id < |vals|
    ensures ElementsOk(elements[height + 1 := id], height + 1, |vals|)
    ensures StackMatches(height + 1, elements[height + 1 := id], vals, start, stack + [Num(vals[id])])
  {
    var s, es := stack + [Num(vals[id])], elements[height + 1 := id];
    forall h | h in es ensures Holds(start, s, h, vals[es[h]]) {
      if h != height + 1 { assert Holds(start, stack, h, vals[elements[h]]); }
    }
    forall h | h !in es && 1 <= |start| + h <= |s| ensures Untouched(start, s, h) {
      assert Untouched(start, stack, h);
    }
  }

  /** A height that was not looked at before still holds what the block found there. */
  lemma {:induction false} NoteStack(height: int, elements: map<int, Id>, h: int, id: Id, vals: seq<Word>,
      start: seq<Value>, stack: seq<Value>)
    requires ElementsOk(elements, height, |vals|) && StackMatches(height, elements, vals, start, stack)
    requires AllNums(start)
    requires h <= height && h !in elements && 1 <= |start| + h && id < |vals| && vals[id] == InitialWord(start, h)
    ensures ElementsOk(elements[h := id], height, |vals|)
    ensures StackMatches(height, elements[h := id], vals, start, stack)
  {
    assert Untouched(start, stack, h);
    var es := elements[h := id];
    forall j | j in es ensures Holds(start, stack, j, vals[es[j]]) {
      if j != h { assert Holds(start, stack, j, vals[elements[j]]); }
    }
    forall j | j !in es && 1 <= |start| + j <= |stack| ensures Untouched(start, stack, j) { assert j !in elements; }
  }

  lemma {:induction false} SwapStack(height: int, elements: map<int, Id>, n: nat, vals: seq<Word>, start: seq<Value>,
      stack: seq<Value>)
    requires ElementsOk(elements, height, |vals|) && StackMatches(height, elements, vals, start, stack)
    requires 1 <= n < |stack|
    requires height in elements && height - n in elements
    ensures ElementsOk(Exchange(elements, height, height - n), height, |vals|)
    ensures StackMatches(height, Exchange(elements, height, height - n), vals, start, Swapped(stack, n))
  {
    var s, es := Swapped(stack, n), Exchange(elements, height, height - n);
    assert Holds(start, stack, height, vals[elements[height]]);
    assert Holds(start, stack, height - n, vals[elements[height - n]]);
    forall h | h in es ensures Holds(start, s, h, vals[es[h]]) { assert Holds(start, stack, h, vals[elements[h]]); }
    forall h | h !in es && 1 <= |start| + h <= |s| ensures Untouched(start, s, h) {
      assert Untouched(start, stack, h);
    }
  }

  // ----- operands -----

  /** The classes of the top stack elements, top first, are known. */
  predicate OperandsKnown(height: int, elements: map<int, Id>, args: seq<Id>) {
    forall i :: 0 <= i < |args| ==> ElementIs(elements, height - i, args[i])
  }

  predicate ElementIs(elements: map<int, Id>, h: int, id: Id) { h in elements && elements[h] == id }

  ghost function Pick(vals: seq<Word>, args: seq<Id>): (r: seq<Word>)
    requires AllBelow(args, |vals|)
    ensures |r| == |args|
  {
    seq(|args|, i requires 0 <= i < |args| => vals[args[i]])
  }

  lemma {:induction false} OperandValues(height: int, elements: map<int, Id>, args: seq<Id>, vals: seq<Word>,
      start: seq<Value>, stack: seq<Value>)
    requires ElementsOk(elements, height, |vals|) && StackMatches(height, elements, vals, start, stack)
    requires OperandsKnown(height, elements, args) && |args| <= |stack|
    ensures AllBelow(args, |vals|) && AllNums(Top(stack, |args|))
    ensures NumsOf(Top(stack, |args|)) == Pick(vals, args)
  {
    forall i | 0 <= i < |args| ensures args[i] < |vals| && Top(stack, |args|)[i] == Num(vals[args[i]]) {
      assert ElementIs(elements, height - i, args[i]);
      assert Holds(start, stack, height - i, vals[elements[height - i]]);
    }
  }

  // ----- one step -----

  /** Only the stack part of the facts changed. */
  lemma {:induction false} SameWorldFacts(k: Facts, k': Facts, vals: seq<Word>, c: Context, m: State,
      stack': seq<Value>)
    requires Describes(k, vals, c, m)
    requires ElementsOk(k'.elements, k'.height, |vals|) && StackMatches(k'.height, k'.elements, vals, c.stack, stack')
    requires k'.sequence == k.sequence && k'.storage == k.storage && k'.memory == k.memory
    ensures Describes(k', vals, c, State(stack', m.world))
  {
  }

  lemma {:induction false} DropFacts(k: Facts, n: nat, vals: seq<Word>, c: Context, m: State)
    requires Describes(k, vals, c, m) && n <= |m.stack|
    ensures Describes(Dropped(k, n), vals, c, State(m.stack[..|m.stack| - n], m.world))
  {
    DropStack(k.height, k.elements, n, vals, c.stack, m.stack);
    SameWorldFacts(k, Dropped(k, n), vals, c, m, m.stack[..|m.stack| - n]);
  }

  lemma {:induction false} PushFacts(k: Facts, id: Id, vals: seq<Word>, c: Context, m: State)
    requires Describes(k, vals, c, m) && id < |vals|
    ensures Describes(Pushed(k, id), vals, c, State(m.stack + [Num(vals[id])], m.world))
  {
    PushStack(k.height, k.elements, id, vals, c.stack, m.stack);
    SameWorldFacts(k, Pushed(k, id), vals, c, m, m.stack + [Num(vals[id])]);
  }

  lemma {:induction false} ReplaceFacts(k: Facts, n: nat, id: Id, vals: seq<Word>, c: Context, m: State)
    requires Describes(k, vals, c, m) && n <= |m.stack| && id < |vals|
    ensures Describes(Replaced(k, n, id), vals, c, State(m.stack[..|m.stack| - n] + [Num(vals[id])], m.world))
  {
    DropFacts(k, n, vals, c, m);
    PushFacts(Dropped(k, n), id, vals, c, State(m.stack[..|m.stack| - n], m.world));
  }

  lemma {:induction false} DupFacts(k: Facts, n: nat, vals: seq<Word>, c: Context, m: State)
    requires Describes(k, vals, c, m) && n < |m.stack| && k.height - n in k.elements
    ensures Describes(Pushed(k, k.elements[k.height - n]), vals, c,
                      State(m.stack + [m.stack[|m.stack| - 1 - n]], m.world))
  {
    assert Holds(c.stack, m.stack, k.height - n, vals[k.elements[k.height - n]]);
    PushFacts(k, k.elements[k.height - n], vals, c, m);
  }

  lemma {:induction false} SwapFacts(k: Facts, n: nat, vals: seq<Word>, c: Context, m: State)
    requires Describes(k, vals, c, m) && 1 <= n < |m.stack| && k.height in k.elements && k.height - n in k.elements
    ensures Describes(Exchanged(k, k.height, k.height - n), vals, c, State(Swapped(m.stack, n), m.world))
  {
    SwapStack(k.height, k.elements, n, vals, c.stack, m.stack);
    SameWorldFacts(k, Exchanged(k, k.height, k.height - n), vals, c, m, Swapped(m.stack, n));
  }

  lemma {:induction false} NoteFacts(k: Facts, h: int, id: Id, vals: seq<Word>, c: Context, m: State)
    requires Describes(k, vals, c, m) && h <= k.height && h !in k.elements && 1 <= |c.stack| + h
    requires id < |vals| && vals[id] == InitialWord(c.stack, h)
    ensures Describes(Noted(k, h, id), vals, c, m)
  {
    NoteStack(k.height, k.elements, h, id, vals, c.stack, m.stack);
    SameWorldFacts(k, Noted(k, h, id), vals, c, m, m.stack);
  }

  // ----- what the machine does on the instructions of a block -----

  lemma {:induction false} PlainExec(env: Env, op: Opcode, m: State, m': State)
    requires IsPure(op) && ExecItem(env, Operation(op), m) == Some(m')
    ensures InfoOf(op).args <= |m.stack| && AllNums(Top(m.stack, InfoOf(op).args))
    ensures m' == State(m.stack[..|m.stack| - InfoOf(op).args] + [Num(env.apply(op, NumsOf(Top(m.stack, InfoOf(op).args)), m.world.trace))], m.world)
  {
  }

  lemma {:induction false} DupExec(env: Env, op: Opcode, m: State, m': State)
    requires IsDup(op) && ExecItem(env, Operation(op), m) == Some(m')
    ensures op - DUP1 < |m.stack| && m' == State(m.stack + [m.stack[|m.stack| - 1 - (op - DUP1)]], m.world)
  {
  }

  lemma {:induction false} SwapExec(env: Env, op: Opcode, m: State, m': State)
    requires IsSwap(op) && ExecItem(env, Operation(op), m) == Some(m')
    ensures op - SWAP1 + 1 < |m.stack| && m' == State(Swapped(m.stack, op - SWAP1 + 1), m.world)
  {
  }

  lemma {:induction false} SloadExec(env: Env, m: State, m': State)
    requires ExecItem(env, Operation(SLOAD), m) == Some(m') && AllNums(m.stack)
    ensures 1 <= |m.stack|
    ensures m' == State(m.stack[..|m.stack| - 1] + [m.world.storage[m.stack[|m.stack| - 1].word]], m.world)
  {
  }

  lemma {:induction false} MloadExec(env: Env, m: State, m': State)
    requires ExecItem(env, Operation(MLOAD), m) == Some(m') && AllNums(m.stack)
    ensures 1 <= |m.stack| && ReadWord(m.world.memory, m.stack[|m.stack| - 1].word).Some?
    ensures m' == State(m.stack[..|m.stack| - 1] + [ReadWord(m.world.memory, m.stack[|m.stack| - 1].word).value], m.world)
  {
  }

  lemma {:induction false} SstoreExec(env: Env, m: State, m': State)
    requires ExecItem(env, Operation(SSTORE), m) == Some(m') && AllNums(m.stack)
    ensures 2 <= |m.stack|
    ensures var n := |m.stack|;
            m' == State(m.stack[..n - 2], m.world.(storage := m.world.storage[m.stack[n - 1].word := m.stack[n - 2]]))
  {
  }

  lemma {:induction false} MstoreExec(env: Env, m: State, m': State)
    requires ExecItem(env, Operation(MSTORE), m) == Some(m') && AllNums(m.stack)
    ensures 2 <= |m.stack|
    ensures var n := |m.stack|;
            m' == State(m.stack[..n - 2], m.world.(memory := WriteWord(m.world.memory, m.stack[n - 1].word, m.stack[n - 2])))
  {
  }

  // ----- loads and stores -----

  lemma {:induction false} SlotLoaded(known: map<Id, Id>, slot: Id, id: Id, vals: seq<Word>, storage: Storage)
    requires ClassMapOk(known, |vals|) && StorageMatches(known, vals, storage) && slot < |vals| && id < |vals|
    requires SlotHolds(storage, vals[slot], vals[id])
    ensures ClassMapOk(known[slot := id], |vals|) && StorageMatches(known[slot := id], vals, storage)
  {
  }

  lemma {:induction false} AddressLoaded(known: map<Id, Id>, slot: Id, id: Id, vals: seq<Word>, memory: Memory)
    requires ClassMapOk(known, |vals|) && MemoryMatches(known, vals, memory) && slot < |vals| && id < |vals|
    requires AddressHolds(memory, vals[slot], vals[id])
    ensures ClassMapOk(known[slot := id], |vals|) && MemoryMatches(known[slot := id], vals, memory)
  {
  }

  /** What a store to `slot` may keep of the storage facts: entries at different slots, and
      entries that hold the stored class anyway. */
  ghost predicate StorageKept(known: map<Id, Id>, kept: map<Id, Id>, slot: Id, value: Id, vals: seq<Word>)
    requires ClassMapOk(known, |vals|) && slot < |vals|
  {
    forall s :: s in kept ==> s in known && kept[s] == known[s] && (vals[s] != vals[slot] || known[s] == value)
  }

  lemma {:induction false} StorageStored(known: map<Id, Id>, kept: map<Id, Id>, slot: Id, value: Id, vals: seq<Word>,
      storage: Storage)
    requires ClassMapOk(known, |vals|) && StorageMatches(known, vals, storage) && slot < |vals| && value < |vals|
    requires StorageKept(known, kept, slot, value, vals)
    ensures ClassMapOk(kept[slot := value], |vals|)
    ensures StorageMatches(kept[slot := value], vals, storage[vals[slot] := Num(vals[value])])
  {
    var after := storage[vals[slot] := Num(vals[value])];
    var now := kept[slot := value];
    forall s | s in now ensures SlotHolds(after, vals[s], vals[now[s]]) {
      if s != slot { assert SlotHolds(storage, vals[s], vals[known[s]]); }
    }
  }

  /** What a store to memory may keep: entries at least 32 bytes away, modulo 2^256. */
  ghost predicate MemoryKept(known: map<Id, Id>, kept: map<Id, Id>, slot: Id, vals: seq<Word>)
    requires ClassMapOk(known, |vals|) && slot < |vals|
  {
    forall s :: s in kept ==> s in known && kept[s] == known[s] && FarApart(vals[s], vals[slot])
  }

  lemma {:induction false} FarOffset(x: Word, a: Word, i: int)
    requires FarApart(x, a) && 0 <= i < 32
    ensures OffsetFrom(a, AddressAt(x, i)) >= 32
  {
    var d := OffsetFrom(a, x);
    assert Sub(x, a) == d;
    assert 32 <= d <= MODULUS - 32;
  }

  lemma {:induction false} FarRead(m: Memory, a: Word, v: Value, x: Word)
    requires FarApart(x, a)
    ensures ReadWord(WriteWord(m, a, v), x) == ReadWord(m, x)
  {
    var m' := WriteWord(m, a, v);
    forall i | 0 <= i < 32 ensures CellsAt(m', x)[i] == CellsAt(m, x)[i] { FarOffset(x, a, i); }
    assert CellsAt(m', x) == CellsAt(m, x);
  }

  lemma {:induction false} MemoryStored(known: map<Id, Id>, kept: map<Id, Id>, slot: Id, value: Id, vals: seq<Word>,
      memory: Memory)
    requires ClassMapOk(known, |vals|) && MemoryMatches(known, vals, memory) && slot < |vals| && value < |vals|
    requires MemoryKept(known, kept, slot, vals)
    ensures ClassMapOk(kept[slot := value], |vals|)
    ensures MemoryMatches(kept[slot := value], vals, WriteWord(memory, vals[slot], Num(vals[value])))
  {
    var after := WriteWord(memory, vals[slot], Num(vals[value]));
    var now := kept[slot := value];
    ReadAfterWrite(memory, vals[slot], Num(vals[value]));
    forall s | s in now ensures AddressHolds(after, vals[s], vals[now[s]]) {
      if s != slot {
        assert AddressHolds(memory, vals[s], vals[known[s]]);
        FarRead(memory, vals[slot], Num(vals[value]), vals[s]);
      }
    }
  }

  lemma {:induction false} NumericWrite(w: World, a: Word, x: Word)
    requires NumericWorld(w)
    ensures NumericWorld(w.(memory := WriteWord(w.memory, a, Num(x))))
    ensures NumericWorld(w.(storage := w.storage[a := Num(x)]))
  {
  }

  lemma {:induction false} ExtendedOk(c: Context, w: World)
    requires ContextOk(c) && NumericWorld(w) && w.trace == c.history[0].trace
    ensures ContextOk(Extended(c, w))
  {
  }

  /** The facts after a recorded store. */
  function Stored(k: Facts, storage: map<Id, Id>, memory: map<Id, Id>): Facts {
    Dropped(k, 2).(storage := storage, memory := memory, sequence := k.sequence + 2)
  }

  lemma {:induction false} StoredFacts(k: Facts, storage: map<Id, Id>, memory: map<Id, Id>, vals: seq<Word>,
      c: Context, m: State, w: World)
    requires Describes(k, vals, c, m) && |m.stack| >= 2
    requires NumericWorld(w) && w.trace == m.world.trace
    requires ClassMapOk(storage, |vals|) && StorageMatches(storage, vals, w.storage)
    requires ClassMapOk(memory, |vals|) && MemoryMatches(memory, vals, w.memory)
    ensures Describes(Stored(k, storage, memory), vals, Extended(c, w), State(m.stack[..|m.stack| - 2], w))
  {
    DropStack(k.height, k.elements, 2, vals, c.stack, m.stack);
    ExtendedOk(c, w);
  }

  lemma {:induction false} StorageStoreFacts(k: Facts, kept: map<Id, Id>, slot: Id, value: Id, vals: seq<Word>,
      c: Context, m: State)
    requires Describes(k, vals, c, m) && |m.stack| >= 2 && OperandsKnown(k.height, k.elements, [slot, value])
    requires slot < |vals| && value < |vals| && StorageKept(k.storage, kept, slot, value, vals)
    ensures var w := m.world.(storage := m.world.storage[vals[slot] := Num(vals[value])]);
            Describes(Stored(k, kept[slot := value], k.memory), vals, Extended(c, w), State(m.stack[..|m.stack| - 2], w))
  {
    var w := m.world.(storage := m.world.storage[vals[slot] := Num(vals[value])]);
    StorageStored(k.storage, kept, slot, value, vals, m.world.storage);
    NumericWrite(m.world, vals[slot], vals[value]);
    StoredFacts(k, kept[slot := value], k.memory, vals, c, m, w);
  }

  lemma {:induction false} MemoryStoreFacts(k: Facts, kept: map<Id, Id>, slot: Id, value: Id, vals: seq<Word>,
      c: Context, m: State)
    requires Describes(k, vals, c, m) && |m.stack| >= 2 && OperandsKnown(k.height, k.elements, [slot, value])
    requires slot < |vals| && value < |vals| && MemoryKept(k.memory, kept, slot, vals)
    ensures var w := m.world.(memory := WriteWord(m.world.memory, vals[slot], Num(vals[value])));
            Describes(Stored(k, k.storage, kept[slot := value]), vals, Extended(c, w), State(m.stack[..|m.stack| - 2], w))
  {
    var w := m.world.(memory := WriteWord(m.world.memory, vals[slot], Num(vals[value])));
    MemoryStored(k.memory, kept, slot, value, vals, m.world.memory);
    NumericWrite(m.world, vals[slot], vals[value]);
    StoredFacts(k, k.storage, kept[slot := value], vals, c, m, w);
  }
}
