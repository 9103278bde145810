/** A small EVM: stack, storage, byte memory, symbolic code tags. */
module Machine {
  import opened Words
  import opened Instructions
  import opened Arithmetic
  import opened Items

  /** A stack slot holds a number or an opaque reference to a code position. */
  datatype Value = Num(word: Word) | CodeRef(tag: Word)

  /** A memory cell holds a byte or one of the 32 parts of a stored code reference. */
  type Octet = x: int | 0 <= x < 256
  datatype Cell = Byte(octet: Octet) | RefPart(tag: Word, index: nat)

  ghost predicate Total<V(!new)>(m: imap<Word, V>) { forall k: Word :: k in m }

  type Storage = s: imap<Word, Value> | Total(s)
    ghost witness imap k: Word | true :: Num(0)
  type Memory = m: imap<Word, Cell> | Total(m)
    ghost witness imap k: Word | true :: Byte(0)

  /** One interaction with the outside world. */
  datatype Event = Event(op: Opcode, args: seq<Word>)

  datatype World = World(storage: Storage, memory: Memory, trace: seq<Event>)
  datatype State = State(stack: seq<Value>, world: World)

  // ----- memory words -----

  /** Big-endian bytes. */
  function BytesOf(w: nat, n: nat): (r: seq<Octet>)
    ensures |r| == n
    decreases n
  {
    if n == 0 then [] else BytesOf(w / 256, n - 1) + [w % 256]
  }

  function FromBytes(bytes: seq<Octet>): nat
    decreases |bytes|
  {
    if |bytes| == 0 then 0 else 256 * FromBytes(bytes[..|bytes| - 1]) + bytes[|bytes| - 1]
  }

  lemma {:induction false} BytesBound(bytes: seq<Octet>)
    ensures FromBytes(bytes) < Pow2(8 * |bytes|)
    decreases |bytes|
  {
    var n := |bytes|;
    if n > 0 {
      BytesBound(bytes[..n - 1]);
      Pow2Sum(8, 8 * (n - 1));
      assert Pow2(8) == 256;
    }
  }

  lemma {:induction false} BytesRoundTrip(w: nat, n: nat)
    requires w < Pow2(8 * n)
    ensures FromBytes(BytesOf(w, n)) == w
    decreases n
  {
    if n > 0 {
      Pow2Sum(8, 8 * (n - 1));
      assert Pow2(8) == 256;
      BytesRoundTrip(w / 256, n - 1);
      assert BytesOf(w, n)[..n - 1] == BytesOf(w / 256, n - 1);
    }
  }

  lemma {:induction false} NumberRoundTrip(bytes: seq<Octet>)
    ensures BytesOf(FromBytes(bytes), |bytes|) == bytes
    decreases |bytes|
  {
    var n := |bytes|;
    if n > 0 {
      NumberRoundTrip(bytes[..n - 1]);
      assert bytes == bytes[..n - 1] + [bytes[n - 1]];
    }
  }

  lemma {:induction false} NoBytes(v: nat)
    ensures BytesOf(v, 0) == []
  {
  }

  function Zeros(n: nat): (r: seq<Octet>)
    ensures |r| == n
  {
    seq(n, _ => 0)
  }

  lemma {:induction false} ZeroBytes(n: nat)
    ensures BytesOf(0, n) == Zeros(n)
  {
    if n > 0 {
      ZeroBytes(n - 1);
      assert Zeros(n) == Zeros(n - 1) + [0];
    }
  }

  function ToCells(v: Value): (r: seq<Cell>)
    ensures |r| == 32
  {
    match v
    case Num(w) => seq(32, i requires 0 <= i < 32 => Byte(BytesOf(w, 32)[i]))
    case CodeRef(t) => seq(32, i requires 0 <= i < 32 => RefPart(t, i))
  }

  predicate AllBytes(cells: seq<Cell>) { forall i :: 0 <= i < |cells| ==> cells[i].Byte? }

  function Octets(cells: seq<Cell>): (r: seq<Octet>)
    requires AllBytes(cells)
    ensures |r| == |cells|
  {
    seq(|cells|, i requires 0 <= i < |cells| => cells[i].octet)
  }

  /** The parts of a stored code reference, in order; cells can only get into this order by one store. */
  predicate IsReference(cells: seq<Cell>) { forall i :: 0 <= i < |cells| ==> cells[i].RefPart? && cells[i].index == i }

  /** The value of 32 cells, if they are 32 bytes or the parts of a code reference. */
  function FromCells(cells: seq<Cell>): Option<Value>
    requires |cells| == 32
  {
    if AllBytes(cells) then BytesBound(Octets(cells)); Pow2At256(); Some(Num(FromBytes(Octets(cells))))
    else if IsReference(cells) then Some(CodeRef(cells[0].tag))
    else None
  }

  lemma {:induction false} CellsRoundTrip(v: Value)
    ensures FromCells(ToCells(v)) == Some(v)
  {
    var cells := ToCells(v);
    if v.Num? {
      Pow2At256();
      BytesRoundTrip(v.word, 32);
      assert Octets(cells) == BytesOf(v.word, 32);
    } else {
      assert !cells[0].Byte?;
    }
  }

  lemma {:induction false} CellsUnique(cells: seq<Cell>, v: Value)
    requires |cells| == 32 && FromCells(cells) == Some(v) && v.Num?
    ensures cells == ToCells(v)
  {
    NumberRoundTrip(Octets(cells));
  }

  /** Memory addresses wrap around at 2^256: the i-th address from a, and the way back. */
  function AddressAt(a: Word, i: int): Word
    requires 0 <= i < 32
  {
    if a + i < MODULUS then a + i else a + i - MODULUS
  }

  function OffsetFrom(a: Word, k: Word): Word { if k >= a then k - a else k - a + MODULUS }

  ghost function CellsAt(m: Memory, a: Word): (r: seq<Cell>)
    ensures |r| == 32
  {
    seq(32, i requires 0 <= i < 32 => m[AddressAt(a, i)])
  }

  ghost function ReadWord(m: Memory, a: Word): Option<Value> { FromCells(CellsAt(m, a)) }

  ghost function WriteWord(m: Memory, a: Word, v: Value): Memory {
    imap k: Word | true :: if OffsetFrom(a, k) < 32 then ToCells(v)[OffsetFrom(a, k)] else m[k]
  }

  lemma {:induction false} WrittenCell(m: Memory, a: Word, v: Value, i: int)
    requires 0 <= i < 32
    ensures WriteWord(m, a, v)[AddressAt(a, i)] == ToCells(v)[i]
  {
    assert OffsetFrom(a, AddressAt(a, i)) == i;
  }

  lemma {:induction false} ReadAfterWrite(m: Memory, a: Word, v: Value)
    ensures ReadWord(WriteWord(m, a, v), a) == Some(v)
  {
    var m' := WriteWord(m, a, v);
    forall i | 0 <= i < 32 ensures CellsAt(m', a)[i] == ToCells(v)[i] { WrittenCell(m, a, v, i); }
    assert CellsAt(m', a) == ToCells(v);
    CellsRoundTrip(v);
  }

  lemma {:induction false} CellWithin(m: Memory, a: Word, k: Word)
    requires OffsetFrom(a, k) < 32
    ensures CellsAt(m, a)[OffsetFrom(a, k)] == m[k]
  {
    assert AddressAt(a, OffsetFrom(a, k)) == k;
  }

  /** Writing what is already there changes nothing. */
  lemma {:induction false} WriteSame(m: Memory, a: Word, v: Value)
    requires ReadWord(m, a) == Some(v) && v.Num?
    ensures WriteWord(m, a, v) == m
  {
    CellsUnique(CellsAt(m, a), v);
    var m' := WriteWord(m, a, v);
    forall k: Word ensures m'[k] == m[k] {
      if OffsetFrom(a, k) < 32 { CellWithin(m, a, k); }
    }
  }

  // ----- execution of one item -----

  /** What the outside world can see: code references are blank. */
  datatype Blanked = Seen(octet: Octet) | Blank
  datatype View = View(storage: imap<Word, Option<Word>>, memory: imap<Word, Blanked>, trace: seq<Event>)

  ghost function ViewOf(w: World): View {
    View(imap k: Word | true :: (match w.storage[k] case Num(n) => Some(n) case CodeRef(_) => None),
         imap k: Word | true :: (match w.memory[k] case Byte(b) => Seen(b) case RefPart(_, _) => Blank),
         w.trace)
  }

  /** What an effect does: a result and plain data written to storage and memory. */
  datatype Effect = Effect(result: Word, storage: map<Word, Word>, memory: map<Word, Octet>)

  /** The environment of a run. `apply` gives the arithmetic instructions and the reads of the
      call environment, `effect` everything that touches memory in bulk or the outside world, `tag` and `data` what link time will fill in. */
  datatype Env = Env(
    apply: (Opcode, seq<Word>, seq<Event>) -> Word,
    effect: (Opcode, seq<Word>, View) -> Effect,
    tag: Word -> Value,
    data: (Kind, Word) -> Word)

  /** The arithmetic instructions mean what the EVM says. */
  ghost predicate EvmArithmetic(env: Env) {
    forall op: Opcode, args: seq<Word>, t: seq<Event> {:trigger env.apply(op, args, t), Arith(op, args)}
      | IsArithmetic(op) && |args| == InfoOf(op).args :: env.apply(op, args, t) == Arith(op, args)
  }

  /** The top n stack elements, top first. */
  function Top(stack: seq<Value>, n: nat): (r: seq<Value>)
    requires n <= |stack|
    ensures |r| == n
  {
    seq(n, i requires 0 <= i < n => stack[|stack| - 1 - i])
  }

  predicate AllNums(vals: seq<Value>) { forall i :: 0 <= i < |vals| ==> vals[i].Num? }

  function NumsOf(vals: seq<Value>): (r: seq<Word>)
    requires AllNums(vals)
    ensures |r| == |vals|
  {
    seq(|vals|, i requires 0 <= i < |vals| => vals[i].word)
  }

  ghost function PatchWorld(w: World, e: Effect, event: Event): World {
    World(
      imap k: Word | true :: (if k in e.storage then Num(e.storage[k]) else w.storage[k]),
      imap k: Word | true :: (if k in e.memory then Byte(e.memory[k]) else w.memory[k]),
      if IsInteraction(event.op) then w.trace + [event] else w.trace)
  }

  /** Loads, stores and everything else that takes its operands from the stack. */
  ghost function Perform(env: Env, op: Opcode, args: seq<Value>, rest: seq<Value>, w: World): Option<State>
    requires |args| == InfoOf(op).args
  {
    if op == SLOAD then
      if args[0].Num? then Some(State(rest + [w.storage[args[0].word]], w)) else None
    else if op == SSTORE then
      if args[0].Num? then Some(State(rest, w.(storage := w.storage[args[0].word := args[1]]))) else None
    else if op == MLOAD then
      if args[0].Num? && ReadWord(w.memory, args[0].word).Some?
      then Some(State(rest + [ReadWord(w.memory, args[0].word).value], w)) else None
    else if op == MSTORE then
      if args[0].Num? then Some(State(rest, w.(memory := WriteWord(w.memory, args[0].word, args[1])))) else None
    else if !AllNums(args) then None
    else if IsArithmetic(op) || IsEnvironment(op) then
      Some(State(rest + [Num(env.apply(op, NumsOf(args), w.trace))], w))
    else if IsEffect(op) then
      var e := env.effect(op, NumsOf(args), ViewOf(w));
      var w' := PatchWorld(w, e, Event(op, NumsOf(args)));
      Some(State(if InfoOf(op).ret == 1 then rest + [Num(e.result)] else rest, w'))
    else None
  }

  ghost function ExecOp(env: Env, op: Opcode, s: State): Option<State> {
    var n := |s.stack|;
    if n < InfoOf(op).args then None
    else if op == POP then Some(s.(stack := s.stack[..n - 1]))
    else if IsDup(op) then Some(s.(stack := s.stack + [s.stack[n - (op - DUP1 + 1)]]))
    else if IsSwap(op) then Some(s.(stack := Swapped(s.stack, op - SWAP1 + 1)))
    else Perform(env, op, Top(s.stack, InfoOf(op).args), s.stack[..n - InfoOf(op).args], s.world)
  }

  /** The top element exchanged with the one n places below it. */
  function Swapped(stack: seq<Value>, n: nat): (r: seq<Value>)
    requires n < |stack|
    ensures |r| == |stack|
  {
    var top := |stack| - 1;
    stack[top := stack[top - n]][top - n := stack[top]]
  }

  function PushedValue(env: Env, kind: Kind, d: Word): Value {
    if kind == Push then Num(d) else if kind == PushTag then env.tag(d) else Num(env.data(kind, d))
  }

  /** One item other than a jump or a halt; None when the machine is stuck: not enough operands,
      a code reference where a number is needed, or an instruction outside the model
      (GAS, PC and MSIZE among them). */
  ghost function ExecItem(env: Env, item: Item, s: State): Option<State> {
    match item
    case Undefined(_) => None
    case Operation(op) => ExecOp(env, op, s)
    case Data(kind, d) => if kind == Tag then Some(s) else Some(s.(stack := s.stack + [PushedValue(env, kind, d)]))
  }

  /** A straight-line run. */
  ghost function RunBlock(env: Env, items: seq<Item>, s: State): Option<State>
    decreases |items|
  {
    if |items| == 0 then Some(s)
    else
      var m := RunBlock(env, items[..|items| - 1], s);
      if m.None? then None else ExecItem(env, items[|items| - 1], m.value)
  }

  lemma {:induction false} RunBlockSnoc(env: Env, items: seq<Item>, item: Item, s: State)
    ensures RunBlock(env, items + [item], s) ==
            if RunBlock(env, items, s).None? then None else ExecItem(env, item, RunBlock(env, items, s).value)
  {
    assert (items + [item])[..|items|] == items;
  }

  lemma {:induction false} RunBlockConcat(env: Env, first: seq<Item>, second: seq<Item>, s: State)
    ensures RunBlock(env, first + second, s) ==
            if RunBlock(env, first, s).None? then None else RunBlock(env, second, RunBlock(env, first, s).value)
    decreases |second|
  {
    if |second| == 0 {
      assert first + second == first;
    } else {
      var n := |second| - 1;
      RunBlockConcat(env, first, second[..n], s);
      assert (first + second)[..|first + second| - 1] == first + second[..n];
    }
  }
}
