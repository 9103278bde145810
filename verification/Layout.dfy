/** The code generator's picture of the stack, and why the code emitted so far produces it. */
module Layouts {
  import opened Words
  import opened Instructions
  import opened Items
  import opened Machine
  import opened Rules
  import opened Expressions
  import opened Classes
  import opened Knowledge
  import opened Steps
  import opened Tracking
  import opened Replays

  /** Emitted code, stack height, known stack contents and, the other way round, the places of each class. */
  datatype Layout = Layout(items: seq<Item>, height: int, stack: map<int, Id>, positions: map<Id, set<int>>)

  // ----- positions are the inverse of the stack -----

  function PositionsIn(stack: map<int, Id>, id: Id): set<int> { set h | h in stack && stack[h] == id }

  predicate Inverse(stack: map<int, Id>, positions: map<Id, set<int>>) {
    && (forall h :: h in stack ==> stack[h] in positions)
    && (forall id :: id in positions ==> positions[id] == PositionsIn(stack, id))
  }

  function Remove(g: Layout, h: int): Layout
    requires h in g.stack && g.stack[h] in g.positions
  {
    g.(stack := g.stack - {h}, positions := g.positions[g.stack[h] := g.positions[g.stack[h]] - {h}])
  }

  function Put(g: Layout, h: int, id: Id): Layout {
    g.(stack := g.stack[h := id],
       positions := g.positions[id := (if id in g.positions then g.positions[id] else {}) + {h}])
  }

  function Swap(g: Layout, a: int, b: int): Layout
    requires a in g.stack && b in g.stack && g.stack[a] in g.positions && g.stack[b] in g.positions
  {
    var x, y := g.stack[a], g.stack[b];
    if x == y then g
    else g.(stack := Exchange(g.stack, a, b),
            positions := g.positions[x := g.positions[x] - {a} + {b}][y := g.positions[y] - {b} + {a}])
  }

  lemma {:induction false} RemoveInverse(g: Layout, h: int)
    requires Inverse(g.stack, g.positions) && h in g.stack
    ensures Inverse(Remove(g, h).stack, Remove(g, h).positions)
  {
    var r := Remove(g, h);
    forall id | id in r.positions ensures r.positions[id] == PositionsIn(r.stack, id) {
      assert g.positions[id] == PositionsIn(g.stack, id);
    }
  }

  lemma {:induction false} PutInverse(g: Layout, h: int, id: Id)
    requires Inverse(g.stack, g.positions) && h !in g.stack
    ensures Inverse(Put(g, h, id).stack, Put(g, h, id).positions)
  {
    var r := Put(g, h, id);
    forall i | i in r.positions ensures r.positions[i] == PositionsIn(r.stack, i) {
      if i in g.positions { assert g.positions[i] == PositionsIn(g.stack, i); }
      else { assert forall j :: j in g.stack ==> g.stack[j] != i; }
    }
  }

  lemma {:induction false} SwapInverse(g: Layout, a: int, b: int)
    requires Inverse(g.stack, g.positions) && a in g.stack && b in g.stack
    ensures Inverse(Swap(g, a, b).stack, Swap(g, a, b).positions)
    ensures Swap(g, a, b).stack == Exchange(g.stack, a, b)
    ensures Swap(g, a, b).positions.Keys == g.positions.Keys
  {
    var r := Swap(g, a, b);
    forall i | i in r.positions ensures r.positions[i] == PositionsIn(r.stack, i) {
      assert g.positions[i] == PositionsIn(g.stack, i);
    }
  }

  /** The known stack reaches without gap from `low` to the top. */
  ghost predicate LayoutOk(g: Layout, low: int, n: nat) {
    && low - 1 <= g.height
    && (forall h :: h in g.stack <==> low <= h <= g.height)
    && (forall id :: id in g.positions ==> id < n)
    && Inverse(g.stack, g.positions)
  }

  // ----- the block being generated -----

  /** The classes and the recorded stores of a block, and the lowest height it looks at. */
  datatype Plan = Plan(reps: seq<Expr>, ops: seq<StoreOperation>, low: int)

  predicate OpsOk(ops: seq<StoreOperation>, reps: seq<Expr>) {
    forall j :: 0 <= j < |ops| ==> StoreOk(ops[j], reps) && ops[j].sequenceNumber == 2 * j + 2
  }

  predicate PlanOk(p: Plan) { WellFormed(p.reps) && OpsOk(p.ops, p.reps) }

  ghost function WriteOf(p: Plan, vals: seq<Word>, j: nat): Write
    requires PlanOk(p) && |vals| == |p.reps| && j < |p.ops|
  {
    assert StoreOk(p.ops[j], p.reps);
    Write(p.ops[j].target, vals[p.ops[j].slot], vals[p.reps[p.ops[j].expression].arguments[1]])
  }

  ghost function WritesOf(p: Plan, vals: seq<Word>): (r: seq<Write>)
    requires PlanOk(p) && |vals| == |p.reps|
    ensures |r| == |p.ops| && forall j :: 0 <= j < |r| ==> r[j] == WriteOf(p, vals, j)
  {
    seq(|p.ops|, j requires 0 <= j < |p.ops| => WriteOf(p, vals, j))
  }

  /** A run of the block: the worlds between its stores are those the recorded stores produce. */
  ghost predicate Consistent(p: Plan, c: Context) {
    && PlanOk(p) && ContextOk(c) && 1 <= |c.stack| + p.low
    && HistoryIs(c.history, WritesOf(p, Values(c, p.reps)))
  }

  /** The machine holds what the layout says, and the world is that of the stores executed so far. */
  ghost predicate Fits(p: Plan, c: Context, height: int, stack: map<int, Id>, done: set<nat>, m: State) {
    && Consistent(p, c) && ElementsOk(stack, height, |p.reps|)
    && StackMatches(height, stack, Values(c, p.reps), c.stack, m.stack)
    && m.world == Replay(c.history[0], WritesOf(p, Values(c, p.reps)), done, |p.ops|)
  }

  ghost predicate GoodRun(p: Plan, c: Context, items: seq<Item>, height: int, stack: map<int, Id>, done: set<nat>) {
    && |c.history| > 0
    && var r := RunBlock(c.env, items, State(c.stack, c.history[0]));
    && r.Some? && Fits(p, c, height, stack, done, r.value)
  }

  /** In every run of the block, the code succeeds and produces the layout. */
  ghost predicate Emits(p: Plan, items: seq<Item>, height: int, stack: map<int, Id>, done: set<nat>) {
    forall c :: Consistent(p, c) ==> GoodRun(p, c, items, height, stack, done)
  }

  /** From a machine that fits one layout, the item leads to one that fits the other. */
  ghost predicate Moves(p: Plan, c: Context, item: Item, h: int, s: map<int, Id>, done: set<nat>, h': int, s': map<int,
      Id>, done': set<nat>) {
    forall m: State :: Fits(p, c, h, s, done, m) ==>
      ExecItem(c.env, item, m).Some? && Fits(p, c, h', s', done', ExecItem(c.env, item, m).value)
  }

  lemma {:induction false} RunOneMore(p: Plan, c: Context, items: seq<Item>, item: Item, h: int, s: map<int, Id>,
      done: set<nat>, h': int, s': map<int, Id>, done': set<nat>)
    requires GoodRun(p, c, items, h, s, done) && Moves(p, c, item, h, s, done, h', s', done')
    ensures GoodRun(p, c, items + [item], h', s', done')
  {
    hide Fits, ExecItem;
    RunBlockSnoc(c.env, items, item, State(c.stack, c.history[0]));
  }

  lemma {:induction false} EmitOneMore(p: Plan, items: seq<Item>, item: Item, h: int, s: map<int, Id>, done: set<nat>,
      h': int, s': map<int, Id>, done': set<nat>)
    requires Emits(p, items, h, s, done)
    requires forall c :: Consistent(p, c) ==> Moves(p, c, item, h, s, done, h', s', done')
    ensures Emits(p, items + [item], h', s', done')
  {
    hide Consistent, GoodRun, Moves;
    forall c | Consistent(p, c) ensures GoodRun(p, c, items + [item], h', s', done') {
      RunOneMore(p, c, items, item, h, s, done, h', s', done');
    }
  }

  // ----- moving things around -----

  lemma {:induction false} FitsStack(p: Plan, c: Context, h: int, s: map<int, Id>, done: set<nat>, m: State, h': int,
      s': map<int, Id>, stack': seq<Value>)
    requires Fits(p, c, h, s, done, m)
    requires ElementsOk(s', h', |p.reps|) && StackMatches(h', s', Values(c, p.reps), c.stack, stack')
    ensures Fits(p, c, h', s', done, State(stack', m.world))
  {
    hide Consistent, StackMatches, ElementsOk, Replay;
  }

  lemma {:induction false} FitsFacts(p: Plan, c: Context, h: int, s: map<int, Id>, done: set<nat>, m: State)
    requires Fits(p, c, h, s, done, m)
    ensures Consistent(p, c) && WellFormed(p.reps) && ElementsOk(s, h, |p.reps|)
    ensures StackMatches(h, s, Values(c, p.reps), c.stack, m.stack) && |m.stack| == |c.stack| + h
    ensures 1 <= |c.stack| + p.low
  {
    hide HistoryIs, WritesOf, ContextOk, WellFormed, OpsOk;
  }

  /** A height within the known stack is a position of the machine's stack. */
  lemma {:induction false} WithinStack(p: Plan, c: Context, h: int, s: map<int, Id>, done: set<nat>, m: State, k: int)
    requires Fits(p, c, h, s, done, m) && k in s
    ensures k <= h && 1 <= |c.stack| + k && |m.stack| == |c.stack| + h
    ensures s[k] < |p.reps| && WellFormed(p.reps) && m.stack[|c.stack| + k - 1] == Num(Values(c, p.reps)[s[k]])
  {
    hide Consistent, WellFormed;
    FitsFacts(p, c, h, s, done, m);
    assert Holds(c.stack, m.stack, k, Values(c, p.reps)[s[k]]);
  }

  lemma {:induction false} SwapMoves(p: Plan, c: Context, h: int, s: map<int, Id>, done: set<nat>, n: nat)
    requires 1 <= n <= 16 && h in s && h - n in s
    ensures Moves(p, c, Operation(SWAP1 + n - 1), h, s, done, h, Exchange(s, h, h - n), done)
  {
    hide Fits, StackMatches, ElementsOk, Swapped, Exchange;
    forall m: State | Fits(p, c, h, s, done, m)
      ensures ExecItem(c.env, Operation(SWAP1 + n - 1), m).Some?
      ensures Fits(p, c, h, Exchange(s, h, h - n), done, ExecItem(c.env, Operation(SWAP1 + n - 1), m).value)
    {
      FitsFacts(p, c, h, s, done, m);
      WithinStack(p, c, h, s, done, m, h - n);
      SwapStack(h, s, n, Values(c, p.reps), c.stack, m.stack);
      FitsStack(p, c, h, s, done, m, h, Exchange(s, h, h - n), Swapped(m.stack, n));
      SwapRuns(c.env, n, m);
    }
  }

  lemma {:induction false} SwapRuns(env: Env, n: nat, m: State)
    requires 1 <= n <= 16 && n < |m.stack|
    ensures ExecItem(env, Operation(SWAP1 + n - 1), m) == Some(State(Swapped(m.stack, n), m.world))
  {
    hide Swapped;
  }

  lemma {:induction false} DupMoves(p: Plan, c: Context, h: int, s: map<int, Id>, done: set<nat>, n: nat)
    requires 1 <= n <= 16 && h - n + 1 in s
    ensures Moves(p, c, Operation(DUP1 + n - 1), h, s, done, h + 1, s[h + 1 := s[h - n + 1]], done)
  {
    hide Fits, StackMatches, ElementsOk, ExecItem, PlanOk, Consistent;
    forall m: State | Fits(p, c, h, s, done, m)
      ensures ExecItem(c.env, Operation(DUP1 + n - 1), m).Some?
      ensures Fits(p, c, h + 1, s[h + 1 := s[h - n + 1]], done, ExecItem(c.env, Operation(DUP1 + n - 1), m).value)
    {
      FitsFacts(p, c, h, s, done, m);
      WithinStack(p, c, h, s, done, m, h - n + 1);
      var vals := Values(c, p.reps);
      PushStack(h, s, s[h - n + 1], vals, c.stack, m.stack);
      FitsStack(p, c, h, s, done, m, h + 1, s[h + 1 := s[h - n + 1]], m.stack + [Num(vals[s[h - n + 1]])]);
      DupRuns(c.env, n, m);
    }
  }

  lemma {:induction false} DupRuns(env: Env, n: nat, m: State)
    requires 1 <= n <= 16 && n <= |m.stack|
    ensures ExecItem(env, Operation(DUP1 + n - 1), m) == Some(State(m.stack + [m.stack[|m.stack| - n]], m.world))
  {
  }

  lemma {:induction false} PopMoves(p: Plan, c: Context, h: int, s: map<int, Id>, done: set<nat>)
    requires h in s
    ensures Moves(p, c, Operation(POP), h, s, done, h - 1, Truncate(s, h - 1), done)
  {
    hide Fits, StackMatches, ElementsOk, Truncate;
    forall m: State | Fits(p, c, h, s, done, m)
      ensures ExecItem(c.env, Operation(POP), m).Some?
      ensures Fits(p, c, h - 1, Truncate(s, h - 1), done, ExecItem(c.env, Operation(POP), m).value)
    {
      FitsFacts(p, c, h, s, done, m);
      WithinStack(p, c, h, s, done, m, h);
      DropStack(h, s, 1, Values(c, p.reps), c.stack, m.stack);
      FitsStack(p, c, h, s, done, m, h - 1, Truncate(s, h - 1), m.stack[..|m.stack| - 1]);
    }
  }

  lemma {:induction false} SwappedTwice(stack: seq<Value>, n: nat)
    requires n < |stack|
    ensures Swapped(Swapped(stack, n), n) == stack
  {
  }

  /** Two equal swaps in a row do nothing. */
  lemma {:induction false} SwapPair(env: Env, items: seq<Item>, op: Opcode, s: State)
    requires IsSwap(op) && RunBlock(env, items + [Operation(op), Operation(op)], s).Some?
    ensures RunBlock(env, items, s) == RunBlock(env, items + [Operation(op), Operation(op)], s)
  {
    hide ExecItem, Swapped;
    var once := items + [Operation(op)];
    assert items + [Operation(op), Operation(op)] == once + [Operation(op)];
    RunBlockSnoc(env, once, Operation(op), s);
    RunBlockSnoc(env, items, Operation(op), s);
    var m := RunBlock(env, items, s).value;
    var m1 := RunBlock(env, once, s).value;
    SwapExec(env, op, m, m1);
    SwapExec(env, op, m1, RunBlock(env, once + [Operation(op)], s).value);
    SwappedTwice(m.stack, op - SWAP1 + 1);
  }

  lemma {:induction false} CancelSwaps(p: Plan, items: seq<Item>, op: Opcode, h: int, s: map<int, Id>, done: set<nat>)
    requires IsSwap(op) && Emits(p, items + [Operation(op), Operation(op)], h, s, done)
    ensures Emits(p, items, h, s, done)
  {
    hide Consistent, Fits;
    forall c | Consistent(p, c) ensures GoodRun(p, c, items, h, s, done) {
      assert GoodRun(p, c, items + [Operation(op), Operation(op)], h, s, done);
      SwapPair(c.env, items, op, State(c.stack, c.history[0]));
    }
  }

  // ----- computing a class -----

  /** The value of a class from the values of its arguments. */
  lemma {:induction false} ClassValue(c: Context, reps: seq<Expr>, id: Id)
    requires WellFormed(reps) && id < |reps|
    ensures ExprOk(reps[id], id) && AllBelow(reps[id].arguments, |reps|)
    ensures Values(c, reps)[id] == EvalExpr(ValuationOf(c), reps[id], Pick(Values(c, reps), reps[id].arguments))
  {
    hide EvalExpr;
    EvalUnfold(ValuationOf(c), reps, id);
    assert ArgValues(ValuationOf(c), reps, reps[id].arguments) == Pick(Values(c, reps), reps[id].arguments);
  }

  /** The operands lie on the stack in order, or the other way round if that makes no difference. */
  predicate Arranged(tops: seq<Id>, e: Expr) {
    tops == e.arguments || (IsCommutativeItem(e.item) && |tops| == |e.arguments| == 2 && tops[0] == e.arguments[1] && tops[1] == e.arguments[0])
  }

  lemma {:induction false} PlainValue(c: Context, reps: seq<Expr>, id: Id, op: Opcode, tops: seq<Id>)
    requires ContextOk(c) && WellFormed(reps) && id < |reps| && reps[id].item == Operation(op)
    requires reps[id].sequenceNumber == 0
    requires Arranged(tops, reps[id])
    ensures AllBelow(tops, |reps|)
    ensures Values(c, reps)[id] == c.env.apply(op, Pick(Values(c, reps), tops), c.history[0].trace)
  {
    hide ContextOk, WellFormed, Sensible, Values;
    ClassValue(c, reps, id);
    HistoryNonEmpty(c);
    if tops != reps[id].arguments {
      ContextIsSensible(c);
      CommutedValue(ValuationOf(c), op, Pick(Values(c, reps), reps[id].arguments), Pick(Values(c, reps), tops));
    }
  }

  /** What the machine does on a pure instruction whose operands are numbers. */
  lemma {:induction false} PlainRuns(env: Env, op: Opcode, m: State)
    requires IsPure(op) && InfoOf(op).args <= |m.stack| && AllNums(Top(m.stack, InfoOf(op).args))
    ensures ExecItem(env, Operation(op), m) ==
            Some(State(m.stack[..|m.stack| - InfoOf(op).args] + [Num(env.apply(op, NumsOf(Top(m.stack, InfoOf(op).args)), m.world.trace))], m.world))
  {
  }

  lemma {:induction false} FitsTrace(p: Plan, c: Context, h: int, s: map<int, Id>, done: set<nat>, m: State)
    requires Fits(p, c, h, s, done, m)
    ensures ContextOk(c) && |c.history| > 0 && m.world.trace == c.history[0].trace
  {
    hide ContextOk, StackMatches, WellFormed, OpsOk;
    HistoryNonEmpty(c);
    ReplayTrace(c.history[0], WritesOf(p, Values(c, p.reps)), done, |p.ops|);
  }

  /** The topmost elements as numbers. */
  lemma {:induction false} FitsOperands(p: Plan, c: Context, h: int, s: map<int, Id>, done: set<nat>, m: State,
      tops: seq<Id>)
    requires Fits(p, c, h, s, done, m) && OperandsKnown(h, s, tops)
    ensures WellFormed(p.reps) && |tops| <= |m.stack| && AllBelow(tops, |p.reps|) && AllNums(Top(m.stack, |tops|))
    ensures NumsOf(Top(m.stack, |tops|)) == Pick(Values(c, p.reps), tops)
  {
    hide StackMatches, Consistent, OperandsKnown, ElementsOk, AllNums, AllBelow;
    FitsFacts(p, c, h, s, done, m);
    if |tops| > 0 {
      LastOperand(h, s, tops);
      WithinStack(p, c, h, s, done, m, h - |tops| + 1);
    }
    OperandValues(h, s, tops, Values(c, p.reps), c.stack, m.stack);
  }

  lemma {:induction false} LastOperand(h: int, s: map<int, Id>, tops: seq<Id>)
    requires OperandsKnown(h, s, tops) && |tops| > 0
    ensures h - |tops| + 1 in s
  {
    assert ElementIs(s, h - (|tops| - 1), tops[|tops| - 1]);
  }

  lemma {:induction false} ReplaceStack(height: int, elements: map<int, Id>, n: nat, id: Id, vals: seq<Word>,
      start: seq<Value>, stack: seq<Value>)
    requires ElementsOk(elements, height, |vals|) && StackMatches(height, elements, vals, start, stack) && n <= |stack|
    requires id < |vals|
    ensures ElementsOk(Truncate(elements, height - n)[height - n + 1 := id], height - n + 1, |vals|)
    ensures StackMatches(height - n + 1, Truncate(elements, height - n)[height - n + 1 := id], vals, start,
                         stack[..|stack| - n] + [Num(vals[id])])
  {
    hide StackMatches, ElementsOk, Truncate;
    DropStack(height, elements, n, vals, start, stack);
    PushStack(height - n, Truncate(elements, height - n), id, vals, start, stack[..|stack| - n]);
  }

  /** A class with its operands on top of the stack. */
  predicate OperandsReady(p: Plan, h: int, s: map<int, Id>, id: Id, tops: seq<Id>) {
    id < |p.reps| && OperandsKnown(h, s, tops) && Arranged(tops, p.reps[id])
  }

  lemma {:induction false} PlainMoves(p: Plan, c: Context, h: int, s: map<int, Id>, done: set<nat>, id: Id, op: Opcode,
      tops: seq<Id>)
    requires OperandsReady(p, h, s, id, tops)
    requires p.reps[id].item == Operation(op) && p.reps[id].sequenceNumber == 0 && IsPure(op)
    requires |tops| == InfoOf(op).args
    ensures Moves(p, c, Operation(op), h, s, done, h - |tops| + 1, Truncate(s, h - |tops|)[h - |tops| + 1 := id], done)
  {
    hide Fits, StackMatches, ElementsOk, Truncate, OperandsKnown, Arranged, InfoOf, IsPure, AllBelow, AllNums, NumsOf;
    hide Top, Pick, ExecItem;
    forall m: State | Fits(p, c, h, s, done, m)
      ensures ExecItem(c.env, Operation(op), m).Some?
      ensures Fits(p, c, h - |tops| + 1, Truncate(s, h - |tops|)[h - |tops| + 1 := id], done,
                   ExecItem(c.env, Operation(op), m).value)
    {
      FitsFacts(p, c, h, s, done, m);
      FitsTrace(p, c, h, s, done, m);
      FitsOperands(p, c, h, s, done, m, tops);
      PlainRuns(c.env, op, m);
      PlainValue(c, p.reps, id, op, tops);
      ReplaceStack(h, s, |tops|, id, Values(c, p.reps), c.stack, m.stack);
      FitsStack(p, c, h, s, done, m, h - |tops| + 1, Truncate(s, h - |tops|)[h - |tops| + 1 := id],
                m.stack[..|m.stack| - |tops|] + [Num(Values(c, p.reps)[id])]);
    }
  }

  lemma {:induction false} PushMoves(p: Plan, c: Context, h: int, s: map<int, Id>, done: set<nat>, id: Id)
    requires id < |p.reps| && p.reps[id].item.Data? && p.reps[id].item.kind != Tag
    ensures Moves(p, c, p.reps[id].item, h, s, done, h + 1, s[h + 1 := id], done)
  {
    hide Fits, StackMatches, ElementsOk, ExecItem;
    forall m: State | Fits(p, c, h, s, done, m)
      ensures ExecItem(c.env, p.reps[id].item, m).Some?
      ensures Fits(p, c, h + 1, s[h + 1 := id], done, ExecItem(c.env, p.reps[id].item, m).value)
    {
      FitsFacts(p, c, h, s, done, m);
      FitsTrace(p, c, h, s, done, m);
      PushRuns(c, p.reps, id, m);
      PushStack(h, s, id, Values(c, p.reps), c.stack, m.stack);
      FitsStack(p, c, h, s, done, m, h + 1, s[h + 1 := id], m.stack + [Num(Values(c, p.reps)[id])]);
    }
  }

  lemma {:induction false} PushRuns(c: Context, reps: seq<Expr>, id: Id, m: State)
    requires ContextOk(c) && WellFormed(reps) && id < |reps| && reps[id].item.Data? && reps[id].item.kind != Tag
    ensures ExecItem(c.env, reps[id].item, m) == Some(State(m.stack + [Num(Values(c, reps)[id])], m.world))
  {
    hide WellFormed, EvmArithmetic, EnvAddresses, NumericWorld;
    ClassValue(c, reps, id);
    assert c.env.tag(reps[id].item.data).Num?;
  }

  // ----- loads and stores -----

  /** Executed now, a load gives the value it had in the block. */
  ghost predicate LoadReadyIn(p: Plan, c: Context, id: Id, done: set<nat>) {
    && PlanOk(p) && |c.history| > 0 && id < |p.reps| && IsLoad(p.reps[id]) && |p.reps[id].arguments| == 1 && p.reps[id].arguments[0] < |p.reps|
    && var vals := Values(c, p.reps);
    && var w := Replay(c.history[0], WritesOf(p, vals), done, |p.ops|);
    && var slot := vals[p.reps[id].arguments[0]];
    && if p.reps[id].item == Operation(SLOAD) then SlotHolds(w.storage, slot, vals[id]) else AddressHolds(w.memory, slot, vals[id])
  }

  ghost predicate LoadReady(p: Plan, id: Id, done: set<nat>) {
    forall c :: Consistent(p, c) ==> LoadReadyIn(p, c, id, done)
  }

  lemma {:induction false} LoadRuns(env: Env, op: Opcode, m: State, slot: Word, value: Word)
    requires (op == SLOAD || op == MLOAD) && |m.stack| >= 1 && m.stack[|m.stack| - 1] == Num(slot)
    requires if op == SLOAD then SlotHolds(m.world.storage, slot, value) else AddressHolds(m.world.memory, slot, value)
    ensures ExecItem(env, Operation(op), m) == Some(State(m.stack[..|m.stack| - 1] + [Num(value)], m.world))
  {
    hide ReadWord;
  }

  lemma {:induction false} LoadMoves(p: Plan, c: Context, h: int, s: map<int, Id>, done: set<nat>, id: Id, op: Opcode)
    requires id < |p.reps| && IsLoad(p.reps[id]) && |p.reps[id].arguments| == 1 && p.reps[id].item == Operation(op)
    requires OperandsKnown(h, s, p.reps[id].arguments) && LoadReadyIn(p, c, id, done)
    ensures Moves(p, c, Operation(op), h, s, done, h, Truncate(s, h - 1)[h := id], done)
  {
    hide StackMatches, ElementsOk, Truncate, Consistent, ExecItem, Replay, WritesOf, SlotHolds, AddressHolds;
    hide WellFormed, OpsOk;
    forall m: State | Fits(p, c, h, s, done, m)
      ensures ExecItem(c.env, Operation(op), m).Some?
      ensures Fits(p, c, h, Truncate(s, h - 1)[h := id], done, ExecItem(c.env, Operation(op), m).value)
    {
      FitsFacts(p, c, h, s, done, m);
      assert ElementIs(s, h - 0, p.reps[id].arguments[0]);
      WithinStack(p, c, h, s, done, m, h);
      LoadRuns(c.env, op, m, Values(c, p.reps)[p.reps[id].arguments[0]], Values(c, p.reps)[id]);
      ReplaceStack(h, s, 1, id, Values(c, p.reps), c.stack, m.stack);
      FitsStack(p, c, h, s, done, m, h, Truncate(s, h - 1)[h := id],
          m.stack[..|m.stack| - 1] + [Num(Values(c, p.reps)[id])]);
    }
  }

  lemma {:induction false} StoreRuns(env: Env, t: Target, m: State, slot: Word, value: Word)
    requires |m.stack| >= 2 && m.stack[|m.stack| - 1] == Num(slot) && m.stack[|m.stack| - 2] == Num(value)
    ensures ExecItem(env, Operation(StoreOpcode(t)), m) == Some(State(m.stack[..|m.stack| - 2], ApplyStore(m.world, t, slot, value)))
  {
    hide WriteWord;
  }

  lemma {:induction false} NextWorld(p: Plan, c: Context, done: set<nat>, j: nat)
    requires PlanOk(p) && |c.history| > 0 && j < |p.ops| && (forall i :: i in done ==> i < j)
    ensures StoreOk(p.ops[j], p.reps)
    ensures var vals, e := Values(c, p.reps), p.reps[p.ops[j].expression];
            Replay(c.history[0], WritesOf(p, vals), done + {j}, |p.ops|) ==
            ApplyStore(Replay(c.history[0], WritesOf(p, vals), done, |p.ops|), p.ops[j].target, vals[e.arguments[0]], vals[e.arguments[1]])
  {
    hide WellFormed, ApplyStore;
    assert StoreOk(p.ops[j], p.reps);
    ReplayNext(c.history[0], WritesOf(p, Values(c, p.reps)), done, j);
  }

  lemma {:induction false} FitsWorld(p: Plan, c: Context, h: int, s: map<int, Id>, done: set<nat>, m: State, h': int,
      s': map<int, Id>, done': set<nat>, m': State)
    requires Fits(p, c, h, s, done, m)
    requires ElementsOk(s', h', |p.reps|) && StackMatches(h', s', Values(c, p.reps), c.stack, m'.stack)
    requires |c.history| > 0 && m'.world == Replay(c.history[0], WritesOf(p, Values(c, p.reps)), done', |p.ops|)
    ensures Fits(p, c, h', s', done', m')
  {
    hide StackMatches, ElementsOk, Replay, WritesOf;
  }

  lemma {:induction false} FitsReplay(p: Plan, c: Context, h: int, s: map<int, Id>, done: set<nat>, m: State)
    requires Fits(p, c, h, s, done, m)
    ensures PlanOk(p) && |c.history| > 0
    ensures m.world == Replay(c.history[0], WritesOf(p, Values(c, p.reps)), done, |p.ops|)
  {
    hide StackMatches, Replay, WritesOf, OpsOk, WellFormed;
    FitsTrace(p, c, h, s, done, m);
  }

  lemma {:induction false} StoreMoves(p: Plan, c: Context, h: int, s: map<int, Id>, done: set<nat>, j: nat)
    requires PlanOk(p) && j < |p.ops| && (forall i :: i in done ==> i < j)
    requires OperandsKnown(h, s, p.reps[p.ops[j].expression].arguments)
    ensures Moves(p, c, Operation(StoreOpcode(p.ops[j].target)), h, s, done, h - 2, Truncate(s, h - 2), done + {j})
  {
    var args := p.reps[p.ops[j].expression].arguments;
    hide StackMatches, ElementsOk, Truncate, Fits, Consistent, ExecItem, Replay, ApplyStore, WellFormed, OpsOk;
    hide WritesOf, StoreOpcode;
    var item := Operation(StoreOpcode(p.ops[j].target));
    forall m: State | Fits(p, c, h, s, done, m)
      ensures ExecItem(c.env, item, m).Some?
      ensures Fits(p, c, h - 2, Truncate(s, h - 2), done + {j}, ExecItem(c.env, item, m).value)
    {
      FitsFacts(p, c, h, s, done, m);
      FitsReplay(p, c, h, s, done, m);
      NextWorld(p, c, done, j);
      assert ElementIs(s, h - 0, args[0]) && ElementIs(s, h - 1, args[1]);
      WithinStack(p, c, h, s, done, m, h);
      WithinStack(p, c, h, s, done, m, h - 1);
      var vals := Values(c, p.reps);
      StoreRuns(c.env, p.ops[j].target, m, vals[args[0]], vals[args[1]]);
      DropStack(h, s, 2, vals, c.stack, m.stack);
      FitsWorld(p, c, h, s, done, m, h - 2, Truncate(s, h - 2), done + {j}, ExecItem(c.env, item, m).value);
    }
  }
}
