/** What it means for symbolic knowledge to describe a running machine. */
module Knowledge {
  import opened Words
  import opened Instructions
  import opened Arithmetic
  import opened Items
  import opened Machine
  import opened Rules
  import opened Expressions
  import opened Classes

  // ----- runs of a block -----

  /** The start of a block: environment, initial stack, and the worlds between the stores
      that were recorded so far, oldest first. */
  datatype Context = Context(env: Env, stack: seq<Value>, history: seq<World>)

  ghost predicate NumericWorld(w: World) {
    (forall k: Word :: w.storage[k].Num?) && (forall k: Word :: w.memory[k].Byte?)
  }

  /** Tags are numbers once the code is linked. */
  ghost predicate NumericTags(env: Env) { forall t: Word :: env.tag(t).Num? }

  ghost predicate EnvAddresses(env: Env) {
    forall t: seq<Event> ::
      && env.apply(ADDRESS, [], t) < ADDRESS_LIMIT && env.apply(CALLER, [], t) < ADDRESS_LIMIT
      && env.apply(ORIGIN, [], t) < ADDRESS_LIMIT && env.apply(COINBASE, [], t) < ADDRESS_LIMIT
  }

  /** An environment in which linked code runs. */
  ghost predicate LinkedEnv(env: Env) { EvmArithmetic(env) && NumericTags(env) && EnvAddresses(env) }

  ghost predicate ContextOk(c: Context) {
    && LinkedEnv(c.env) && AllNums(c.stack) && |c.history| >= 1
    && (forall i :: 0 <= i < |c.history| ==> NumericWorld(c.history[i]))
    && (forall i :: 0 <= i < |c.history| ==> c.history[i].trace == c.history[0].trace)
  }

  lemma {:induction false} NumericRead(w: World, a: Word)
    requires NumericWorld(w)
    ensures ReadWord(w.memory, a).Some? && ReadWord(w.memory, a).value.Num?
  {
    var cells := CellsAt(w.memory, a);
    forall i | 0 <= i < 32 ensures cells[i].Byte? { assert w.memory[AddressAt(a, i)].Byte?; }
  }

  /** What an access with sequence number n finds: the world before store (n - 1) / 2. */
  ghost function Loaded(history: seq<World>, op: Opcode, args: seq<Word>, n: nat): Word {
    if n == 0 || (n - 1) / 2 >= |history| || |args| == 0 then 0
    else
      var w := history[(n - 1) / 2];
      if op == SLOAD && w.storage[args[0]].Num? then w.storage[args[0]].word
      else if op == MLOAD && ReadWord(w.memory, args[0]).Some? && ReadWord(w.memory, args[0]).value.Num?
      then ReadWord(w.memory, args[0]).value.word
      else 0
  }

  ghost function InitialWord(stack: seq<Value>, h: int): Word {
    var i := |stack| + h - 1;
    if 0 <= i < |stack| && stack[i].Num? then stack[i].word else 0
  }

  ghost function LinkWord(env: Env, kind: Kind, d: Word): Word {
    if kind == PushTag then (if env.tag(d).Num? then env.tag(d).word else 0) else env.data(kind, d)
  }

  ghost function ValuationOf(c: Context): Valuation {
    Valuation(
      (op: Opcode, args: seq<Word>) => c.env.apply(op, args, if |c.history| > 0 then c.history[0].trace else []),
      (h: int) => InitialWord(c.stack, h),
      (kind: Kind, d: Word) => LinkWord(c.env, kind, d),
      (op: Opcode, args: seq<Word>, n: nat) => Loaded(c.history, op, args, n))
  }

  lemma {:induction false} ContextIsSensible(c: Context)
    requires ContextOk(c)
    ensures Sensible(ValuationOf(c))
  {
  }

  /** The values of all classes in a run. */
  ghost function Values(c: Context, reps: seq<Expr>): (r: seq<Word>)
    requires WellFormed(reps)
    ensures |r| == |reps|
    ensures forall i :: 0 <= i < |reps| ==> r[i] == Eval(ValuationOf(c), reps, i)
  {
    seq(|reps|, i requires 0 <= i < |reps| => Eval(ValuationOf(c), reps, i))
  }

  lemma {:induction false} ValuesPrefix(c: Context, reps: seq<Expr>, more: seq<Expr>)
    requires WellFormed(reps) && WellFormed(more) && reps <= more
    ensures Values(c, reps) <= Values(c, more)
  {
    forall i | 0 <= i < |reps| ensures Values(c, more)[i] == Values(c, reps)[i] {
      EvalPrefix(ValuationOf(c), reps, more, i);
    }
  }

  ghost function Extended(c: Context, w: World): Context { c.(history := c.history + [w]) }

  predicate SequencesUpTo(reps: seq<Expr>, n: nat) {
    forall i :: 0 <= i < |reps| ==> reps[i].sequenceNumber <= n
  }

  predicate IsLoad(e: Expr) { e.item == Operation(SLOAD) || e.item == Operation(MLOAD) }

  predicate IsStore(e: Expr) { e.item == Operation(SSTORE) || e.item == Operation(MSTORE) }

  /** Later classes access memory and storage later; loads take place between the stores. */
  predicate SequencesAscend(reps: seq<Expr>) {
    && (forall i :: 0 <= i < |reps| && IsLoad(reps[i]) ==> reps[i].sequenceNumber % 2 == 1)
    && (forall i, j :: 0 <= i < j < |reps| && reps[i].sequenceNumber != 0 && reps[j].sequenceNumber != 0 ==>
          reps[i].sequenceNumber <= reps[j].sequenceNumber)
  }

  lemma {:induction false} SequencedAdded(reps: seq<Expr>, e: Expr, more: seq<Expr>)
    requires SequencesAscend(reps) && SequencesUpTo(reps, e.sequenceNumber) && (IsLoad(e) ==> e.sequenceNumber % 2 == 1)
    requires reps <= more <= reps + [e]
    ensures SequencesAscend(more) && SequencesUpTo(more, e.sequenceNumber)
  {
  }

  lemma {:induction false} EvalExtended(c: Context, w: World, reps: seq<Expr>, id: Id)
    requires WellFormed(reps) && id < |reps| && |c.history| >= 1 && SequencesUpTo(reps, 2 * |c.history| - 1)
    ensures Eval(ValuationOf(Extended(c, w)), reps, id) == Eval(ValuationOf(c), reps, id)
    decreases id
  {
    var v, v' := ValuationOf(c), ValuationOf(Extended(c, w));
    EvalUnfold(v, reps, id);
    EvalUnfold(v', reps, id);
    var args := reps[id].arguments;
    forall i | 0 <= i < |args| ensures Eval(v', reps, args[i]) == Eval(v, reps, args[i]) {
      EvalExtended(c, w, reps, args[i]);
    }
    assert ArgValues(v', reps, args) == ArgValues(v, reps, args);
    assert reps[id].sequenceNumber <= 2 * |c.history| - 1;
  }

  /** Later worlds do not change what earlier accesses found. */
  lemma {:induction false} ValuesExtended(c: Context, w: World, reps: seq<Expr>)
    requires WellFormed(reps) && |c.history| >= 1 && SequencesUpTo(reps, 2 * |c.history| - 1)
    ensures Values(Extended(c, w), reps) == Values(c, reps)
  {
    forall i | 0 <= i < |reps| ensures Values(Extended(c, w), reps)[i] == Values(c, reps)[i] {
      EvalExtended(c, w, reps, i);
    }
  }

  // ----- recorded stores -----

  datatype Target = InMemory | InStorage

  /** A store that has to be executed. */
  datatype StoreOperation = StoreOperation(target: Target, slot: Id, sequenceNumber: nat, expression: Id)

  function StoreOpcode(t: Target): Opcode { if t == InMemory then MSTORE else SSTORE }

  /** The class of a store holds its slot, its value and its place in the sequence. */
  predicate StoreOk(op: StoreOperation, reps: seq<Expr>) {
    && op.expression < |reps|
    && var e := reps[op.expression];
    && e.item == Operation(StoreOpcode(op.target)) && e.sequenceNumber == op.sequenceNumber
    && |e.arguments| == 2 && e.arguments[0] == op.slot < |reps| && e.arguments[1] < |reps|
  }

  ghost function ApplyStore(w: World, t: Target, slot: Word, value: Word): World {
    match t
    case InStorage => w.(storage := w.storage[slot := Num(value)])
    case InMemory => w.(memory := WriteWord(w.memory, slot, Num(value)))
  }

  /** The world after one recorded store. */
  ghost function StoreWorld(w: World, op: StoreOperation, reps: seq<Expr>, vals: seq<Word>): World
    requires |vals| == |reps| && StoreOk(op, reps)
  {
    ApplyStore(w, op.target, vals[op.slot], vals[reps[op.expression].arguments[1]])
  }

  // ----- knowledge -----

  /** Known classes by stack height, by storage slot and by memory address; heights are
      relative to the start of the block and may be negative. */
  datatype Facts = Facts(height: int, elements: map<int, Id>, sequence: nat, storage: map<Id, Id>, memory: map<Id, Id>)

  predicate ElementsOk(elements: map<int, Id>, height: int, n: nat) {
    forall h :: h in elements ==> h <= height && elements[h] < n
  }

  predicate ClassMapOk(m: map<Id, Id>, n: nat) { forall s :: s in m ==> s < n && m[s] < n }

  /** The facts speak about the first n classes only. */
  predicate FactsOk(k: Facts, n: nat) {
    && k.sequence % 2 == 1
    && ElementsOk(k.elements, k.height, n) && ClassMapOk(k.storage, n) && ClassMapOk(k.memory, n)
  }

  /** Height h, which is position |start| + h - 1 of the stack, still holds what the block found there. */
  ghost predicate Untouched(start: seq<Value>, stack: seq<Value>, h: int) {
    h <= 0 && 0 <= |start| + h - 1 < |stack| && stack[|start| + h - 1] == start[|start| + h - 1]
  }

  /** Height h holds the class's value. */
  ghost predicate Holds(start: seq<Value>, stack: seq<Value>, h: int, w: Word) {
    0 <= |start| + h - 1 < |stack| && stack[|start| + h - 1] == Num(w)
  }

  ghost predicate StackMatches(height: int, elements: map<int, Id>, vals: seq<Word>, start: seq<Value>,
      stack: seq<Value>)
    requires ElementsOk(elements, height, |vals|)
  {
    && |stack| == |start| + height
    && AllNums(stack)
    && (forall h :: h in elements ==> Holds(start, stack, h, vals[elements[h]]))
    && (forall h :: h !in elements && 1 <= |start| + h <= |stack| ==> Untouched(start, stack, h))
  }

  ghost predicate SlotHolds(storage: Storage, slot: Word, w: Word) { storage[slot] == Num(w) }

  ghost predicate StorageMatches(known: map<Id, Id>, vals: seq<Word>, storage: Storage)
    requires ClassMapOk(known, |vals|)
  {
    forall s :: s in known ==> SlotHolds(storage, vals[s], vals[known[s]])
  }

  ghost predicate AddressHolds(memory: Memory, a: Word, w: Word) { ReadWord(memory, a) == Some(Num(w)) }

  ghost predicate MemoryMatches(known: map<Id, Id>, vals: seq<Word>, memory: Memory)
    requires ClassMapOk(known, |vals|)
  {
    forall s :: s in known ==> AddressHolds(memory, vals[s], vals[known[s]])
  }

  /** Everything the facts claim is true of the machine: stack, storage and memory. */
  ghost predicate Describes(k: Facts, vals: seq<Word>, c: Context, m: State) {
    && FactsOk(k, |vals|) && ContextOk(c)
    && k.sequence == 2 * |c.history| - 1
    && m.world == c.history[|c.history| - 1]
    && StackMatches(k.height, k.elements, vals, c.stack, m.stack)
    && StorageMatches(k.storage, vals, m.world.storage)
    && MemoryMatches(k.memory, vals, m.world.memory)
  }

  lemma {:induction false} StackMatchesPrefix(height: int, elements: map<int, Id>, vals: seq<Word>, more: seq<Word>,
      start: seq<Value>, stack: seq<Value>)
    requires ElementsOk(elements, height, |vals|) && StackMatches(height, elements, vals, start, stack) && vals <= more
    ensures ElementsOk(elements, height, |more|) && StackMatches(height, elements, more, start, stack)
  {
  }

  lemma {:induction false} StorageMatchesPrefix(known: map<Id, Id>, vals: seq<Word>, more: seq<Word>, storage: Storage)
    requires ClassMapOk(known, |vals|) && StorageMatches(known, vals, storage) && vals <= more
    ensures ClassMapOk(known, |more|) && StorageMatches(known, more, storage)
  {
  }

  lemma {:induction false} MemoryMatchesPrefix(known: map<Id, Id>, vals: seq<Word>, more: seq<Word>, memory: Memory)
    requires ClassMapOk(known, |vals|) && MemoryMatches(known, vals, memory) && vals <= more
    ensures ClassMapOk(known, |more|) && MemoryMatches(known, more, memory)
  {
  }

  /** Facts stay true while classes are added. */
  lemma {:induction false} DescribesPrefix(k: Facts, vals: seq<Word>, more: seq<Word>, c: Context, m: State)
    requires Describes(k, vals, c, m) && vals <= more
    ensures Describes(k, more, c, m)
  {
    StackMatchesPrefix(k.height, k.elements, vals, more, c.stack, m.stack);
    StorageMatchesPrefix(k.storage, vals, more, m.world.storage);
    MemoryMatchesPrefix(k.memory, vals, more, m.world.memory);
  }

  lemma {:induction false} PlainKeepsSequences(reps: seq<Expr>, more: seq<Expr>, n: nat)
    requires SequencesUpTo(reps, n) && SequencesAscend(reps) && AddsUnsequenced(reps, more) && WellFormed(more)
    ensures SequencesUpTo(more, n) && SequencesAscend(more)
    ensures NoNewStores(reps, more)
  {
    forall i | |reps| <= i < |more| ensures !IsLoad(more[i]) && !IsStore(more[i]) { assert ExprOk(more[i], i); }
  }

  predicate NoNewStores(reps: seq<Expr>, more: seq<Expr>) {
    forall i :: |reps| <= i < |more| ==> !IsStore(more[i])
  }
}
