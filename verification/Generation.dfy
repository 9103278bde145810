/** The steps of the code generator: each keeps layout and code in agreement. */
module Generation {
  import opened Words
  import opened Instructions
  import opened Items
  import opened Machine
  import opened Rules
  import opened Expressions
  import opened Classes
  import opened Knowledge
  import opened Steps
  import opened Tracking
  import opened Replays
  import opened Layouts
  import opened Dependencies

  /** The stores whose classes have been generated. */
  function Done(ops: seq<StoreOperation>, generated: set<Id>): set<nat> {
    set j | 0 <= j < |ops| && ops[j].expression in generated
  }

  /** Layout and code agree, in every run of the block. */
  ghost predicate GenOk(p: Plan, g: Layout) {
    && PlanOk(p) && LayoutOk(g, p.low, |p.reps|) && NoTags(g.items) && TagsOfClasses(p.reps, g.items)
    && Emits(p, g.items, g.height, g.stack, Done(p.ops, g.positions.Keys))
  }

  /** Tags are pushed only if a class stands for them. */
  ghost predicate TagsOfClasses(reps: seq<Expr>, items: seq<Item>) {
    forall i :: 0 <= i < |items| && IsPushTag(items[i]) ==> IsClassItem(reps, items[i])
  }

  ghost predicate IsClassItem(reps: seq<Expr>, item: Item) { exists c :: 0 <= c < |reps| && reps[c].item == item }

  lemma {:induction false} TagsMore(reps: seq<Expr>, items: seq<Item>, item: Item)
    requires TagsOfClasses(reps, items) && (IsPushTag(item) ==> IsClassItem(reps, item))
    ensures TagsOfClasses(reps, items + [item])
  {
    hide IsClassItem;
  }

  function SwapItem(n: nat): Item
    requires 1 <= n <= 16
  {
    Operation(SWAP1 + n - 1)
  }

  function DupItem(n: nat): Item
    requires 1 <= n <= 16
  {
    Operation(DUP1 + n - 1)
  }

  /** Appending a swap next to an equal one removes both. */
  function AppendedSwap(items: seq<Item>, n: nat): seq<Item>
    requires 1 <= n <= 16
  {
    if |items| > 0 && items[|items| - 1] == SwapItem(n) then items[..|items| - 1] else items + [SwapItem(n)]
  }

  function SwapLayout(g: Layout, from: int): Layout
    requires Inverse(g.stack, g.positions) && g.height in g.stack && from in g.stack && 1 <= g.height - from <= 16
  {
    Swap(g, g.height, from).(items := AppendedSwap(g.items, g.height - from))
  }

  function DupLayout(g: Layout, from: int): Layout
    requires from in g.stack && 1 <= 1 + g.height - from <= 16
  {
    Put(g.(items := g.items + [DupItem(1 + g.height - from)], height := g.height + 1), g.height + 1, g.stack[from])
  }

  function PopLayout(g: Layout): Layout
    requires Inverse(g.stack, g.positions) && g.height in g.stack
  {
    Remove(g, g.height).(items := g.items + [Operation(POP)], height := g.height - 1)
  }

  lemma {:induction false} AppendSwapEmits(p: Plan, items: seq<Item>, h: int, s: map<int, Id>, done: set<nat>, n: nat)
    requires 1 <= n <= 16 && h in s && h - n in s && Emits(p, items, h, s, done)
    ensures Emits(p, AppendedSwap(items, n), h, Exchange(s, h, h - n), done)
  {
    hide Emits, Exchange, Consistent, Moves;
    forall c | Consistent(p, c)
      ensures Moves(p, c, SwapItem(n), h, s, done, h, Exchange(s, h, h - n), done)
    { SwapMoves(p, c, h, s, done, n); }
    EmitOneMore(p, items, SwapItem(n), h, s, done, h, Exchange(s, h, h - n), done);
    if |items| > 0 && items[|items| - 1] == SwapItem(n) {
      var before := items[..|items| - 1];
      assert items + [SwapItem(n)] == before + [SwapItem(n), SwapItem(n)];
      CancelSwaps(p, before, SWAP1 + n - 1, h, Exchange(s, h, h - n), done);
    }
  }

  lemma {:induction false} SwapGen(p: Plan, g: Layout, from: int)
    requires GenOk(p, g) && g.height in g.stack && from in g.stack && 1 <= g.height - from <= 16
    ensures GenOk(p, SwapLayout(g, from)) && SwapLayout(g, from).stack == Exchange(g.stack, g.height, from)
    ensures SwapLayout(g, from).positions.Keys == g.positions.Keys
  {
    hide PlanOk, Emits, Inverse, Exchange, AppendedSwap, Done, TagsOfClasses;
    SwapInverse(g, g.height, from);
    AppendSwapEmits(p, g.items, g.height, g.stack, Done(p.ops, g.positions.Keys), g.height - from);
    ExchangeKeys(g.stack, g.height, from);
    SwapNoTags(p.reps, g.items, g.height - from);
  }

  lemma {:induction false} SwapNoTags(reps: seq<Expr>, items: seq<Item>, n: nat)
    requires NoTags(items) && TagsOfClasses(reps, items) && 1 <= n <= 16
    ensures NoTags(AppendedSwap(items, n)) && TagsOfClasses(reps, AppendedSwap(items, n))
  {
    hide IsClassItem;
  }

  lemma {:induction false} ExchangeKeys(s: map<int, Id>, a: int, b: int)
    requires a in s && b in s
    ensures Exchange(s, a, b).Keys == s.Keys
  {
  }

  lemma {:induction false} DupGen(p: Plan, g: Layout, from: int)
    requires GenOk(p, g) && from in g.stack && 1 <= 1 + g.height - from <= 16
    ensures GenOk(p, DupLayout(g, from)) && DupLayout(g, from).positions.Keys == g.positions.Keys
  {
    hide PlanOk, Emits, Consistent, Moves, Done, TagsOfClasses;
    TagsMore(p.reps, g.items, DupItem(1 + g.height - from));
    var n, done := 1 + g.height - from, Done(p.ops, g.positions.Keys);
    var s' := g.stack[g.height + 1 := g.stack[from]];
    forall c | Consistent(p, c)
      ensures Moves(p, c, DupItem(n), g.height, g.stack, done, g.height + 1, s', done)
    { DupMoves(p, c, g.height, g.stack, done, n); }
    EmitOneMore(p, g.items, DupItem(n), g.height, g.stack, done, g.height + 1, s', done);
    PutInverse(g.(items := g.items + [DupItem(n)], height := g.height + 1), g.height + 1, g.stack[from]);
    assert DupLayout(g, from).positions.Keys == g.positions.Keys;
  }

  lemma {:induction false} TruncateTop(s: map<int, Id>, h: int)
    requires forall k :: k in s ==> k <= h
    ensures Truncate(s, h - 1) == s - {h}
  {
  }

  lemma {:induction false} PopGen(p: Plan, g: Layout)
    requires GenOk(p, g) && g.height in g.stack
    ensures GenOk(p, PopLayout(g)) && PopLayout(g).positions.Keys == g.positions.Keys
  {
    hide PlanOk, Emits, Consistent, Moves, Done, Truncate, TagsOfClasses;
    TagsMore(p.reps, g.items, Operation(POP));
    var done := Done(p.ops, g.positions.Keys);
    forall c | Consistent(p, c)
      ensures Moves(p, c, Operation(POP), g.height, g.stack, done, g.height - 1, Truncate(g.stack, g.height - 1), done)
    {
      PopMoves(p, c, g.height, g.stack, done);
    }
    EmitOneMore(p, g.items, Operation(POP), g.height, g.stack, done, g.height - 1, Truncate(g.stack, g.height - 1),
        done);
    TruncateTop(g.stack, g.height);
    RemoveInverse(g, g.height);
    assert PopLayout(g).positions.Keys == g.positions.Keys;
  }

  // ----- generating a class -----

  /** A class may be generated now: it is not sequenced, or its turn has come. */
  ghost predicate Ready(p: Plan, id: Id, done: set<nat>) {
    && id < |p.reps|
    && (|| p.reps[id].sequenceNumber == 0
        || (IsLoad(p.reps[id]) && LoadReady(p, id, done))
        || IsStoreTurn(p, id, done))
  }

  predicate IsStoreTurn(p: Plan, id: Id, done: set<nat>)
    requires id < |p.reps|
  {
    var j := p.reps[id].sequenceNumber / 2 - 1;
    IsStore(p.reps[id]) && 0 <= j < |p.ops| && p.ops[j].expression == id && forall i :: i in done ==> i < j
  }

  function Results(item: Item): nat { if item.Operation? then InfoOf(item.op).ret else 1 }

  /** The known stack after a class was computed from its operands. */
  function StackAfter(s: map<int, Id>, h: int, n: nat, item: Item, id: Id): map<int, Id> {
    if Results(item) == 1 then Truncate(s, h - n)[h - n + 1 := id] else Truncate(s, h - n)
  }

  function DoneAfter(p: Plan, id: Id, done: set<nat>): set<nat>
    requires id < |p.reps|
  {
    if IsStore(p.reps[id]) && p.reps[id].sequenceNumber >= 2 then done + {(p.reps[id].sequenceNumber / 2 - 1) as nat} else done
  }

  lemma {:induction false} PlainClassMoves(p: Plan, c: Context, h: int, s: map<int, Id>, done: set<nat>, id: Id,
      tops: seq<Id>)
    requires PlanOk(p) && OperandsReady(p, h, s, id, tops) && p.reps[id].sequenceNumber == 0
    requires p.reps[id].item.Operation?
    ensures Moves(p, c, p.reps[id].item, h, s, done, h - |tops| + 1, Truncate(s, h - |tops|)[h - |tops| + 1 := id],
                  done)
    ensures Results(p.reps[id].item) == 1 && !IsStore(p.reps[id])
  {
    hide Moves, OpsOk, Truncate, OperandsKnown, AllBelow;
    assert ExprOk(p.reps[id], id);
    PlainMoves(p, c, h, s, done, id, p.reps[id].item.op, tops);
  }

  lemma {:induction false} PushClassMoves(p: Plan, c: Context, h: int, s: map<int, Id>, done: set<nat>, id: Id)
    requires PlanOk(p) && id < |p.reps| && p.reps[id].item.Data?
    ensures Moves(p, c, p.reps[id].item, h, s, done, h + 1, s[h + 1 := id], done)
  {
    hide Moves, OpsOk, AllBelow;
    assert ExprOk(p.reps[id], id);
    PushMoves(p, c, h, s, done, id);
  }

  lemma {:induction false} LoadClassMoves(p: Plan, c: Context, h: int, s: map<int, Id>, done: set<nat>, id: Id,
      tops: seq<Id>)
    requires PlanOk(p) && OperandsReady(p, h, s, id, tops) && IsLoad(p.reps[id]) && LoadReadyIn(p, c, id, done)
    ensures Moves(p, c, p.reps[id].item, h, s, done, h, Truncate(s, h - 1)[h := id], done)
    ensures Results(p.reps[id].item) == 1 && |tops| == 1 && !IsStore(p.reps[id])
  {
    hide Moves, OpsOk, WellFormed, OperandsKnown, LoadReadyIn, Truncate;
    LoadShaped(p.reps, id);
    LoadMoves(p, c, h, s, done, id, p.reps[id].item.op);
  }

  lemma {:induction false} StoreClassMoves(p: Plan, c: Context, h: int, s: map<int, Id>, done: set<nat>, id: Id,
      tops: seq<Id>)
    requires PlanOk(p) && OperandsReady(p, h, s, id, tops) && IsStoreTurn(p, id, done)
    ensures Moves(p, c, p.reps[id].item, h, s, done, h - 2, Truncate(s, h - 2), DoneAfter(p, id, done))
    ensures Results(p.reps[id].item) == 0 && |tops| == 2
  {
    hide Moves, WellFormed, OperandsKnown, Truncate;
    var j := p.reps[id].sequenceNumber / 2 - 1;
    assert StoreOk(p.ops[j], p.reps);
    StoreMoves(p, c, h, s, done, j);
  }

  /** Computing a class whose turn has come, from operands on top of the stack. */
  lemma {:induction false} ClassEmits(p: Plan, items: seq<Item>, h: int, s: map<int, Id>, done: set<nat>, id: Id,
      tops: seq<Id>)
    requires PlanOk(p) && Emits(p, items, h, s, done) && Ready(p, id, done) && !p.reps[id].item.Undefined?
    requires OperandsReady(p, h, s, id, tops)
    requires forall k :: k in s ==> k <= h
    ensures Emits(p, items + [p.reps[id].item], h - |tops| + Results(p.reps[id].item),
                  StackAfter(s, h, |tops|, p.reps[id].item, id), DoneAfter(p, id, done))
  {
    hide Moves, Emits, Consistent, LoadReadyIn, OperandsReady, IsStoreTurn, Truncate, PlanOk, Results;
    var item := p.reps[id].item;
    var h', s', done' := h - |tops| + Results(item), StackAfter(s, h, |tops|, item, id), DoneAfter(p, id, done);
    forall c | Consistent(p, c) ensures Moves(p, c, item, h, s, done, h', s', done') {
      ClassMoves(p, c, h, s, done, id, tops);
    }
    EmitOneMore(p, items, item, h, s, done, h', s', done');
  }

  lemma {:induction false} ClassMoves(p: Plan, c: Context, h: int, s: map<int, Id>, done: set<nat>, id: Id,
      tops: seq<Id>)
    requires PlanOk(p) && Ready(p, id, done) && !p.reps[id].item.Undefined? && Consistent(p, c)
    requires OperandsReady(p, h, s, id, tops)
    requires forall k :: k in s ==> k <= h
    ensures Moves(p, c, p.reps[id].item, h, s, done, h - |tops| + Results(p.reps[id].item),
                  StackAfter(s, h, |tops|, p.reps[id].item, id), DoneAfter(p, id, done))
  {
    hide Moves, Consistent, LoadReadyIn, OperandsReady, IsStoreTurn, Truncate, PlanOk, Results;
    if p.reps[id].item.Data? {
      DataHasNoOperands(p, h, s, id, tops);
      PushClassMoves(p, c, h, s, done, id);
    } else if p.reps[id].sequenceNumber == 0 {
      PlainClassMoves(p, c, h, s, done, id, tops);
    } else if IsLoad(p.reps[id]) {
      LoadSequenced(p, id, done);
      LoadClassMoves(p, c, h, s, done, id, tops);
    } else {
      StoreClassMoves(p, c, h, s, done, id, tops);
    }
  }

  lemma {:induction false} LoadSequenced(p: Plan, id: Id, done: set<nat>)
    requires id < |p.reps| && IsLoad(p.reps[id])
    ensures !IsStoreTurn(p, id, done)
  {
  }

  lemma {:induction false} DataHasNoOperands(p: Plan, h: int, s: map<int, Id>, id: Id, tops: seq<Id>)
    requires PlanOk(p) && OperandsReady(p, h, s, id, tops) && p.reps[id].item.Data? && (forall k :: k in s ==> k <= h)
    ensures tops == [] && Truncate(s, h) == s && Results(p.reps[id].item) == 1
  {
    hide OpsOk, OperandsKnown;
    assert ExprOk(p.reps[id], id);
  }

  // ----- the layout after a class was generated -----

  function Trimmed(positions: map<Id, set<int>>, top: int): map<Id, set<int>> {
    map id | id in positions :: set h | h in positions[id] && h <= top
  }

  /** The layout without everything above a height. */
  function Trim(g: Layout, top: int): Layout {
    g.(stack := Truncate(g.stack, top), positions := Trimmed(g.positions, top))
  }

  lemma {:induction false} TrimInverse(g: Layout, top: int)
    requires Inverse(g.stack, g.positions)
    ensures Inverse(Trim(g, top).stack, Trim(g, top).positions) && Trim(g, top).positions.Keys == g.positions.Keys
  {
    var r := Trim(g, top);
    forall id | id in r.positions ensures r.positions[id] == PositionsIn(r.stack, id) {
      assert g.positions[id] == PositionsIn(g.stack, id);
    }
  }

  /** Removing one more element from the top. */
  lemma {:induction false} TrimOne(g: Layout, top: int)
    requires Inverse(g.stack, g.positions) && top in g.stack
    ensures top in Trim(g, top).stack && Trim(g, top).stack[top] in Trim(g, top).positions
    ensures Remove(Trim(g, top), top) == Trim(g, top - 1)
  {
    var r, t := Remove(Trim(g, top), top), Trim(g, top - 1);
    assert r.stack == t.stack;
    forall id | id in g.positions ensures r.positions[id] == t.positions[id] {
      assert g.positions[id] == PositionsIn(g.stack, id);
    }
    assert r.positions == t.positions;
  }

  lemma {:induction false} TrimNothing(g: Layout, low: int, n: nat)
    requires LayoutOk(g, low, n)
    ensures Trim(g, g.height) == g
  {
    assert Truncate(g.stack, g.height) == g.stack;
    forall id | id in g.positions ensures Trimmed(g.positions, g.height)[id] == g.positions[id] {
      assert g.positions[id] == PositionsIn(g.stack, id);
    }
    assert Trimmed(g.positions, g.height) == g.positions;
  }

  function ClassLayout(g: Layout, item: Item, id: Id, n: nat): Layout {
    var r := Trim(g, g.height - n).(items := g.items + [item], height := g.height - n + Results(item));
    if Results(item) == 1 then Put(r, r.height, id)
    else r.(positions := r.positions[id := if id in r.positions then r.positions[id] else {}])
  }

  lemma {:induction false} DoneGrows(p: Plan, id: Id, generated: set<Id>)
    requires PlanOk(p) && Ready(p, id, Done(p.ops, generated))
    ensures Done(p.ops, generated + {id}) == DoneAfter(p, id, Done(p.ops, generated))
  {
    hide LoadReady, WellFormed;
    var j := p.reps[id].sequenceNumber / 2 - 1;
    forall i | 0 <= i < |p.ops| && p.ops[i].expression == id ensures IsStore(p.reps[id]) && i == j {
      assert StoreOk(p.ops[i], p.reps);
    }
    assert ExprOkStore(p.reps, id) by { StoreSequenced(p.reps, id); }
  }

  predicate ExprOkStore(reps: seq<Expr>, id: Id)
    requires id < |reps|
  {
    IsStore(reps[id]) ==> reps[id].sequenceNumber != 0
  }

  lemma {:induction false} StoreSequenced(reps: seq<Expr>, id: Id)
    requires WellFormed(reps) && id < |reps|
    ensures ExprOkStore(reps, id)
  {
    assert ExprOk(reps[id], id);
  }

  lemma {:induction false} ClassGen(p: Plan, g: Layout, id: Id, tops: seq<Id>)
    requires GenOk(p, g) && Ready(p, id, Done(p.ops, g.positions.Keys)) && !p.reps[id].item.Undefined?
    requires OperandsReady(p, g.height, g.stack, id, tops)
    ensures GenOk(p, ClassLayout(g, p.reps[id].item, id, |tops|))
    ensures ClassLayout(g, p.reps[id].item, id, |tops|).positions.Keys == g.positions.Keys + {id}
    ensures p.low <= g.height - |tops| + 1
    ensures ClassLayout(g, p.reps[id].item, id, |tops|).stack == StackAfter(g.stack, g.height, |tops|, p.reps[id].item, id)
  {
    hide PlanOk, Emits, Ready, Done, Results, OperandsKnown, StackAfter, ClassLayout, TagsOfClasses;
    assert IsClassItem(p.reps, p.reps[id].item);
    TagsMore(p.reps, g.items, p.reps[id].item);
    if |tops| > 0 { LastOperand(g.height, g.stack, tops); }
    ClassEmits(p, g.items, g.height, g.stack, Done(p.ops, g.positions.Keys), id, tops);
    DoneGrows(p, id, g.positions.Keys);
    ClassResults(p, id);
    ClassLayoutOk(g, p.low, |p.reps|, p.reps[id].item, id, |tops|);
  }

  lemma {:induction false} ClassResults(p: Plan, id: Id)
    requires PlanOk(p) && id < |p.reps|
    ensures Results(p.reps[id].item) <= 1 && !IsTag(p.reps[id].item)
  {
    assert ExprOk(p.reps[id], id);
  }

  lemma {:induction false} ClassLayoutOk(g: Layout, low: int, size: nat, item: Item, id: Id, n: nat)
    requires LayoutOk(g, low, size) && id < size && low <= g.height - n + 1 && Results(item) <= 1
    ensures var r := ClassLayout(g, item, id, n);
            && LayoutOk(r, low, size) && r.stack == StackAfter(g.stack, g.height, n, item, id)
            && r.positions.Keys == g.positions.Keys + {id}
            && r.items == g.items + [item] && r.height == g.height - n + Results(item)
  {
    hide Results, Inverse, Trimmed;
    TrimInverse(g, g.height - n);
    var r := Trim(g, g.height - n).(items := g.items + [item], height := g.height - n + Results(item));
    if Results(item) == 1 {
      PutInverse(r, r.height, id);
      assert Put(r, r.height, id).positions.Keys == g.positions.Keys + {id};
    } else {
      MarkInverse(r, id);
    }
  }

  lemma {:induction false} MarkInverse(g: Layout, id: Id)
    requires Inverse(g.stack, g.positions)
    ensures Inverse(g.stack, g.positions[id := if id in g.positions then g.positions[id] else {}])
  {
    if id !in g.positions {
      assert forall h :: h in g.stack ==> g.stack[h] != id;
      assert PositionsIn(g.stack, id) == {};
    }
  }
}
