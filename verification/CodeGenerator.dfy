/** The stack scheduler: generates code for a block from its classes and its stores. */
module CodeGenerators {
  import opened Words
  import opened Instructions
  import opened Items
  import opened Machine
  import opened Rules
  import opened Expressions
  import opened Classes
  import opened Knowledge
  import opened Steps
  import opened Tracking
  import opened KnownStates
  import opened Replays
  import opened Layouts
  import opened Dependencies
  import opened Generation

  /** Below `level` the stack already holds its final contents. */
  predicate Placed(stack: map<int, Id>, target: map<int, Id>, low: int, level: int) {
    low <= level && forall h: int :: low <= h < level ==> h in stack && h in target && stack[h] == target[h]
  }

  lemma {:induction false} PlacedBound(g: Layout, target: map<int, Id>, low: int, n: nat, level: int)
    requires LayoutOk(g, low, n) && Placed(g.stack, target, low, level)
    ensures level <= g.height + 1
  {
    if level > low { assert level - 1 in g.stack; }
  }

  lemma {:induction false} PlacedExchange(stack: map<int, Id>, target: map<int, Id>, low: int, level: int, a: int,
      b: int)
    requires Placed(stack, target, low, level) && level <= a && level <= b && a in stack && b in stack
    ensures Placed(Exchange(stack, a, b), target, low, level)
  {
  }

  lemma {:induction false} PlacedSet(stack: map<int, Id>, target: map<int, Id>, low: int, level: int, h: int, id: Id)
    requires Placed(stack, target, low, level) && level <= h
    ensures Placed(stack[h := id], target, low, level)
  {
  }

  /** Only plain classes were generated, apart from the one that was asked for. */
  predicate GeneratedPlain(before: set<Id>, after: set<Id>, reps: seq<Expr>, asked: Option<Id>) {
    before <= after && forall k :: k in after && k !in before ==> k < |reps| && (reps[k].sequenceNumber == 0 || asked == Some(k))
  }

  lemma {:induction false} DoneSame(p: Plan, before: set<Id>, after: set<Id>)
    requires PlanOk(p) && GeneratedPlain(before, after, p.reps, None)
    ensures Done(p.ops, after) == Done(p.ops, before)
  {
    forall j | 0 <= j < |p.ops| ensures p.ops[j].expression in after <==> p.ops[j].expression in before {
      assert StoreOk(p.ops[j], p.reps);
    }
  }

  lemma {:induction false} EmptyOrNot(s: set<int>)
    ensures s == {} || exists x: int :: x in s
  {
    if forall x: int :: x !in s { assert s == {}; }
  }

  predicate IsHighest(s: set<int>, r: int) { r in s && forall x :: x in s ==> x <= r }

  /** The topmost position of a class. */
  function Highest(s: set<int>): (r: int)
    requires s != {}
    ensures IsHighest(s, r)
  {
    HighestExists(s);
    var r :| IsHighest(s, r);
    r
  }

  lemma {:induction false} HighestExists(s: set<int>)
    requires s != {}
    ensures exists r :: IsHighest(s, r)
    decreases s
  {
    EmptyOrNot(s);
    var y: int :| y in s;
    var rest := s - {y};
    if rest == {} {
      assert s == {y};
      assert IsHighest(s, y);
    } else {
      HighestExists(rest);
      var z :| IsHighest(rest, z);
      var m := if z <= y then y else z;
      forall x | x in s ensures x <= m { if x != y { assert x in rest; } }
      assert IsHighest(s, m);
    }
  }

  function Lowest(s: set<int>): (r: int)
    requires s != {}
    ensures r in s && forall x :: x in s ==> r <= x
  {
    EmptyOrNot(s);
    var negated := set x | x in s :: -x;
    assert exists x: int :: x in s && -x in negated;
    var r := -Highest(negated);
    assert forall x :: x in s ==> -x in negated;
    r
  }

  /** The height the stack has to end with. */
  function FinalHeight(initialHeight: int, initial: map<int, Id>, target: map<int, Id>): int {
    if target != map[] then Highest(target.Keys) else if initial != map[] then Lowest(initial.Keys) - 1 else initialHeight
  }

  /** The stores sorted by slot. */
  ghost predicate GroupsMatch(groups: map<(Target, Id), seq<StoreOperation>>, ops: seq<StoreOperation>) {
    forall t: Target, s: Id ::
      ((t, s) in groups <==> Group(ops, t, s) != []) && ((t, s) in groups ==> groups[(t, s)] == Group(ops, t, s))
  }

  function AddToGroup(groups: map<(Target, Id), seq<StoreOperation>>, op: StoreOperation): map<(Target,
      Id), seq<StoreOperation>> {
    var key := (op.target, op.slot);
    groups[key := (if key in groups then groups[key] else []) + [op]]
  }

  lemma {:induction false} GroupsGrow(groups: map<(Target, Id), seq<StoreOperation>>, ops: seq<StoreOperation>,
      op: StoreOperation)
    requires GroupsMatch(groups, ops)
    ensures GroupsMatch(AddToGroup(groups, op), ops + [op])
  {
    var more := ops + [op];
    assert more[..|ops|] == ops;
    forall t: Target, s: Id ensures Group(more, t, s) == Group(ops, t, s) + (if SameGroup(op, t, s) then [op] else []) { }
  }

  class CSECodeGenerator {
    const classes: ExpressionClasses
    const storeOperations: map<(Target, Id), seq<StoreOperation>>
    var generatedItems: seq<Item>
    var stackHeight: int
    var stack: map<int, Id>
    var classPositions: map<Id, set<int>>
    var neededBy: set<(Id, Id)>
    var finalClasses: set<Id>
    var targetStack: map<int, Id>

    function View(): Layout
      reads this
    {
      Layout(generatedItems, stackHeight, stack, classPositions)
    }

    /** Code and layout agree and the target classes are marked as final. */
    ghost predicate Generating(p: Plan)
      reads this
    {
      GenOk(p, View()) && forall h :: h in targetStack ==> targetStack[h] in finalClasses
    }

    constructor (table: ExpressionClasses, operations: seq<StoreOperation>)
      ensures classes == table && GroupsMatch(storeOperations, operations)
      ensures generatedItems == [] && classPositions == map[] && neededBy == {} && finalClasses == {}
    {
      var groups: map<(Target, Id), seq<StoreOperation>> := map[];
      for i := 0 to |operations|
        invariant GroupsMatch(groups, operations[..i])
      {
        GroupsGrow(groups, operations[..i], operations[i]);
        assert operations[..i] + [operations[i]] == operations[..i + 1];
        groups := AddToGroup(groups, operations[i]);
      }
      assert operations[..|operations|] == operations;
      classes, storeOperations := table, groups;
      generatedItems, stackHeight, stack, classPositions := [], 0, map[], map[];
      neededBy, finalClasses, targetStack := {}, {}, map[];
    }

    // ----- stack operations -----

    method AppendDup(from: int, ghost p: Plan) returns (ok: bool)
      requires Generating(p) && from in stack
      modifies this`generatedItems, this`stackHeight, this`stack, this`classPositions
      ensures ok ==> Generating(p) && classPositions.Keys == old(classPositions.Keys)
      ensures ok ==> stackHeight == old(stackHeight) + 1 && stack == old(stack)[stackHeight := old(stack)[from]]
    {
      hide GenOk;
      var instructionNum := 1 + stackHeight - from;
      if instructionNum > 16 || instructionNum < 1 { return false; }
      DupGen(p, View(), from);
      generatedItems := generatedItems + [DupItem(instructionNum)];
      stackHeight := stackHeight + 1;
      var id := stack[from];
      stack := stack[stackHeight := id];
      classPositions := classPositions[id := (if id in classPositions then classPositions[id] else {}) + {stackHeight}];
      ok := true;
    }

    /** Exchanges the top with a lower position; a swap next to an equal one cancels it. */
    method AppendOrRemoveSwap(from: int, ghost p: Plan) returns (ok: bool)
      requires Generating(p) && p.low <= from
      modifies this`generatedItems, this`stack, this`classPositions
      ensures ok ==> Generating(p) && classPositions.Keys == old(classPositions.Keys)
      ensures ok ==> from == stackHeight || from in old(stack)
      ensures ok ==> stack == if from == stackHeight then old(stack) else Exchange(old(stack), stackHeight, from)
      ensures ok && stackHeight - from == 1 ==> generatedItems == AppendedSwap(old(generatedItems), 1)
      ensures 1 <= stackHeight - from <= 16 ==> ok
    {
      hide Emits, PlanOk, Done, TagsOfClasses;
      if from == stackHeight { return true; }
      var instructionNum := stackHeight - from;
      if instructionNum > 16 || instructionNum < 1 { return false; }
      SwapGen(p, View(), from);
      var a, b := stack[stackHeight], stack[from];
      generatedItems := generatedItems + [SwapItem(instructionNum)];
      if a != b {
        classPositions := classPositions[a := classPositions[a] - {stackHeight} + {from}];
        classPositions := classPositions[b := classPositions[b] - {from} + {stackHeight}];
        stack := stack[stackHeight := b][from := a];
      }
      var n := |generatedItems|;
      if n >= 2 && IsSwapItem(generatedItems[n - 1]) && generatedItems[n - 2] == generatedItems[n - 1] {
        generatedItems := generatedItems[..n - 2];
      }
      assert View() == SwapLayout(old(View()), from);
      ok := true;
    }

    /** May the element be taken away from a position, given that class `result` is being computed? */
    predicate CanBeRemoved(element: Id, result: Option<Id>, from: int)
      requires element in classPositions
      reads this
    {
      var haveCopy := |classPositions[element]| > 1;
      if element in finalClasses then
        haveCopy && (from !in targetStack || targetStack[from] != element)
      else if !haveCopy then
        forall d <- neededBy :: d.0 == element ==> Some(d.1) == result || d.1 in classPositions
      else
        true
    }

    /** What is in its final place cannot be removed. */
    lemma {:induction false} RemovableIsHigh(p: Plan, element: Id, result: Option<Id>, from: int, level: int)
      requires Generating(p) && Placed(stack, targetStack, p.low, level)
      requires element in classPositions && CanBeRemoved(element, result, from) && from in stack
      requires stack[from] == element
      ensures level <= from
    {
      hide GenOk;
      assert LayoutOk(View(), p.low, |p.reps|) by { GenLayout(p, View()); }
    }

    method RemoveStackTopIfPossible(ghost p: Plan, ghost level: int) returns (removed: bool)
      requires Generating(p) && Placed(stack, targetStack, p.low, level)
      modifies this`generatedItems, this`stackHeight, this`stack, this`classPositions
      ensures Generating(p) && Placed(stack, targetStack, p.low, level)
      ensures classPositions.Keys == old(classPositions.Keys)
      ensures stackHeight == if removed then old(stackHeight) - 1 else old(stackHeight)
    {
      hide Emits, PlanOk, Done;
      if stack == map[] { return false; }
      assert stackHeight in stack by { EmptyOrNot(stack.Keys); }
      var top := stack[stackHeight];
      if !CanBeRemoved(top, None, stackHeight) { return false; }
      RemovableIsHigh(p, top, None, stackHeight, level);
      PopGen(p, View());
      classPositions := classPositions[top := classPositions[top] - {stackHeight}];
      stack := stack - {stackHeight};
      generatedItems := generatedItems + [Operation(POP)];
      stackHeight := stackHeight - 1;
      assert View() == PopLayout(old(View()));
      removed := true;
    }

    /** The topmost position of a class, if it has one. */
    function ClassElementPosition(id: Id): Option<int>
      reads this
    {
      if id in classPositions && classPositions[id] != {} then Some(Highest(classPositions[id])) else None
    }

    lemma {:induction false} PositionHolds(p: Plan, id: Id)
      requires Generating(p) && ClassElementPosition(id).Some?
      ensures ClassElementPosition(id).value in stack && stack[ClassElementPosition(id).value] == id
      ensures p.low <= ClassElementPosition(id).value <= stackHeight
    {
      GenLayout(p, View());
      var h := ClassElementPosition(id).value;
      assert h in classPositions[id];
      assert classPositions[id] == PositionsIn(stack, id);
    }

    // ----- arguments -----

    /** Brings a class to the top: moved there if its old place is free to use, copied otherwise. */
    method Fetch(a: Id, c: Id, ghost p: Plan, ghost level: int) returns (ok: bool)
      requires Generating(p) && Placed(stack, targetStack, p.low, level)
      modifies this`generatedItems, this`stackHeight, this`stack, this`classPositions
      ensures ok ==> Generating(p) && Placed(stack, targetStack, p.low, level)
      ensures ok ==> classPositions.Keys == old(classPositions.Keys)
      ensures ok ==> level <= stackHeight
    {
      hide GenOk, Placed, CanBeRemoved;
      var position := ClassElementPosition(a);
      if position.None? { return false; }
      PositionHolds(p, a);
      if CanBeRemoved(a, Some(c), position.value) {
        ok := MoveUp(a, Some(c), position.value, p, level);
      } else {
        ok := CopyUp(position.value, p, level);
      }
    }

    method MoveUp(a: Id, ghost c: Option<Id>, position: int, ghost p: Plan, ghost level: int) returns (ok: bool)
      requires Generating(p) && Placed(stack, targetStack, p.low, level)
      requires position in stack && stack[position] == a && a in classPositions && CanBeRemoved(a, c, position)
      modifies this`generatedItems, this`stack, this`classPositions
      ensures ok ==> Generating(p) && Placed(stack, targetStack, p.low, level)
      ensures ok ==> classPositions.Keys == old(classPositions.Keys)
      ensures ok ==> level <= position <= stackHeight && stackHeight in stack && stack[stackHeight] == a
    {
      hide Emits, PlanOk, Placed, CanBeRemoved, Inverse;
      RemovableIsHigh(p, a, c, position, level);
      ghost var before := stack;
      ok := AppendOrRemoveSwap(position, p);
      if ok && position != stackHeight { PlacedExchange(before, targetStack, p.low, level, stackHeight, position); }
    }

    method CopyUp(position: int, ghost p: Plan, ghost level: int) returns (ok: bool)
      requires Generating(p) && Placed(stack, targetStack, p.low, level) && position in stack
      modifies this`generatedItems, this`stackHeight, this`stack, this`classPositions
      ensures ok ==> Generating(p) && Placed(stack, targetStack, p.low, level)
      ensures ok ==> classPositions.Keys == old(classPositions.Keys)
      ensures ok ==> level <= stackHeight == old(stackHeight) + 1
      ensures ok ==> stackHeight in stack && stack == old(stack)[stackHeight := old(stack)[position]]
    {
      hide GenOk, Placed;
      GenLayout(p, View());
      PlacedBound(View(), targetStack, p.low, |p.reps|, level);
      PlacedSet(stack, targetStack, p.low, level, stackHeight + 1, stack[position]);
      ok := AppendDup(position, p);
    }

    /** Two operands, the first on top. */
    method FetchTwo(a: Id, b: Id, c: Id, ghost p: Plan, ghost level: int) returns (ok: bool)
      requires Generating(p) && Placed(stack, targetStack, p.low, level)
      modifies this`generatedItems, this`stackHeight, this`stack, this`classPositions
      ensures ok ==> Generating(p) && Placed(stack, targetStack, p.low, level)
      ensures ok ==> classPositions.Keys == old(classPositions.Keys)
      ensures ok ==> level <= stackHeight - 1
    {
      hide GenOk, Placed, CanBeRemoved;
      var second := ClassElementPosition(b);
      if second.None? { return false; }
      PositionHolds(p, b);
      if CanBeRemoved(b, Some(c), second.value) {
        ok := MoveUp(b, Some(c), second.value, p, level);
        if !ok { return; }
        if a == b {
          ok := CopyUp(stackHeight, p, level);
        } else {
          var first := ClassElementPosition(a);
          if first.None? { return false; }
          PositionHolds(p, a);
          if CanBeRemoved(a, Some(c), first.value) {
            RemovableIsHigh(p, a, Some(c), first.value, level);
            ok := MoveBelow(a, p, level);
          } else {
            ok := CopyUp(first.value, p, level);
          }
        }
      } else {
        ok := FetchTwoKeeping(a, b, c, second.value, p, level);
      }
    }

    /** The top goes one place down and class `a`, which lies somewhere between, comes to the top. */
    method MoveBelow(a: Id, ghost p: Plan, ghost level: int) returns (ok: bool)
      requires Generating(p) && Placed(stack, targetStack, p.low, level)
      requires ClassElementPosition(a).Some? && level <= ClassElementPosition(a).value < stackHeight
      modifies this`generatedItems, this`stack, this`classPositions
      ensures ok ==> Generating(p) && Placed(stack, targetStack, p.low, level)
      ensures ok ==> classPositions.Keys == old(classPositions.Keys)
      ensures ok ==> level <= stackHeight - 1
    {
      hide GenOk, Placed;
      ghost var s0 := stack;
      GenLayout(p, View());
      PositionHolds(p, a);
      ok := AppendOrRemoveSwap(stackHeight - 1, p);
      if !ok { return; }
      PlacedExchange(s0, targetStack, p.low, level, stackHeight, stackHeight - 1);
      var first := ClassElementPosition(a);
      if first.None? { return false; }
      PositionHolds(p, a);
      ghost var s1 := stack;
      HighAfterExchange(p, a, s0, level);
      ok := AppendOrRemoveSwap(first.value, p);
      if ok && first.value != stackHeight { PlacedExchange(s1, targetStack, p.low, level, stackHeight, first.value); }
    }

    /** Exchanging the two topmost elements does not move a class out of the upper part. */
    lemma {:induction false} HighAfterExchange(p: Plan, a: Id, before: map<int, Id>, level: int)
      requires Generating(p) && ClassElementPosition(a).Some? && level <= stackHeight - 1
      requires stackHeight in before && stackHeight - 1 in before
      requires stack == Exchange(before, stackHeight, stackHeight - 1)
      requires exists h :: level <= h <= stackHeight && h in before && before[h] == a
      ensures level <= ClassElementPosition(a).value
    {
      hide Emits, PlanOk;
      var h :| level <= h <= stackHeight && h in before && before[h] == a;
      var h' := if h == stackHeight then stackHeight - 1 else if h == stackHeight - 1 then stackHeight else h;
      assert h' in stack && stack[h'] == a;
      assert h' in PositionsIn(stack, a);
    }

    method FetchTwoKeeping(a: Id, b: Id, c: Id, second: int, ghost p: Plan, ghost level: int) returns (ok: bool)
      requires Generating(p) && Placed(stack, targetStack, p.low, level) && second in stack && stack[second] == b
      modifies this`generatedItems, this`stackHeight, this`stack, this`classPositions
      ensures ok ==> Generating(p) && Placed(stack, targetStack, p.low, level)
      ensures ok ==> classPositions.Keys == old(classPositions.Keys)
      ensures ok ==> level <= stackHeight - 1
    {
      hide GenOk, Placed, CanBeRemoved;
      if a == b {
        ok := CopyUp(second, p, level);
        if !ok { return; }
        ok := CopyUp(stackHeight, p, level);
      } else {
        var first := ClassElementPosition(a);
        if first.None? { return false; }
        PositionHolds(p, a);
        if CanBeRemoved(a, Some(c), first.value) {
          ok := MoveUp(a, Some(c), first.value, p, level);
          if !ok { return; }
          var again := ClassElementPosition(b);
          if again.None? { return false; }
          PositionHolds(p, b);
          ok := CopyUp(again.value, p, level);
          if !ok { return; }
          ok := ExchangeTop(p, level);
        } else {
          ok := CopyUp(second, p, level);
          if !ok { return; }
          var again := ClassElementPosition(a);
          if again.None? { return false; }
          PositionHolds(p, a);
          ok := CopyUp(again.value, p, level);
        }
      }
    }

    method ExchangeTop(ghost p: Plan, ghost level: int) returns (ok: bool)
      requires Generating(p) && Placed(stack, targetStack, p.low, level) && level <= stackHeight - 1
      modifies this`generatedItems, this`stack, this`classPositions
      ensures ok ==> Generating(p) && Placed(stack, targetStack, p.low, level)
      ensures ok ==> classPositions.Keys == old(classPositions.Keys)
      ensures stackHeight in old(stack) && stackHeight - 1 in old(stack)
      ensures ok ==> stack == Exchange(old(stack), stackHeight, stackHeight - 1)
      ensures ok ==> generatedItems == AppendedSwap(old(generatedItems), 1)
      ensures ok
    {
      hide Emits, PlanOk, Placed, Inverse;
      ghost var before := stack;
      PlacedAbove(stack, targetStack, p.low, level);
      ok := AppendOrRemoveSwap(stackHeight - 1, p);
      PlacedExchange(before, targetStack, p.low, level, stackHeight, stackHeight - 1);
    }

    method ArrangeArguments(args: seq<Id>, c: Id, ghost p: Plan, ghost level: int) returns (ok: bool)
      requires Generating(p) && Placed(stack, targetStack, p.low, level)
      modifies this`generatedItems, this`stackHeight, this`stack, this`classPositions
      ensures ok ==> Generating(p) && Placed(stack, targetStack, p.low, level)
      ensures ok ==> classPositions.Keys == old(classPositions.Keys)
      ensures ok ==> |args| <= 2 && level <= stackHeight - |args| + 1 && OperandsKnown(stackHeight, stack, args)
    {
      hide GenOk, Placed, OperandsKnown;
      if |args| > 2 { return false; }
      ok := true;
      if |args| == 1 {
        ok := Fetch(args[0], c, p, level);
      } else if |args| == 2 {
        ok := FetchTwo(args[0], args[1], c, p, level);
      }
      if !ok { return; }
      GenLayout(p, View());
      PlacedBound(View(), targetStack, p.low, |p.reps|, level);
      PlacedAbove(stack, targetStack, p.low, level);
      ok := ArgumentsPresent(args);
    }

    /** The check that the expected arguments are on top of the stack. */
    predicate ArgumentsPresent(args: seq<Id>)
      reads this
      ensures ArgumentsPresent(args) <==> OperandsKnown(stackHeight, stack, args)
    {
      forall i :: 0 <= i < |args| ==> ElementIs(stack, stackHeight - i, args[i])
    }

    /** For a commutative operation, swaps of its operands are taken back. */
    method DropCommutedSwaps(c: Id, ghost p: Plan, ghost level: int) returns (ghost tops: seq<Id>)
      requires Generating(p) && Placed(stack, targetStack, p.low, level)
      requires p.reps == classes.representatives && c < |p.reps| && level <= stackHeight - |p.reps[c].arguments| + 1
      requires OperandsKnown(stackHeight, stack, p.reps[c].arguments)
      modifies this`generatedItems, this`stack, this`classPositions
      ensures Generating(p) && Placed(stack, targetStack, p.low, level)
      ensures classPositions.Keys == old(classPositions.Keys)
      ensures OperandsReady(p, stackHeight, stack, c, tops) && |tops| == |p.reps[c].arguments|
    {
      hide GenOk, Placed, OperandsKnown, PlanOk;
      tops := p.reps[c].arguments;
      GenLayout(p, View());
      CommutativeArguments(p, c);
      while IsCommutativeItem(classes.representatives[c].item) && |generatedItems| > 0 && generatedItems[|generatedItems| - 1] == Operation(SWAP1)
        invariant Generating(p) && Placed(stack, targetStack, p.low, level)
        invariant classPositions.Keys == old(classPositions.Keys)
        invariant OperandsReady(p, stackHeight, stack, c, tops) && |tops| == |p.reps[c].arguments|
        decreases |generatedItems|
      {
        ghost var before := stack;
        var done := ExchangeTop(p, level);
        OperandsExchanged(stackHeight, before, tops);
        tops := [tops[1], tops[0]];
      }
    }

    /** Emits the item of a class whose operands lie on top of the stack. */
    method EmitClass(c: Id, ghost tops: seq<Id>, ghost p: Plan, ghost level: int)
      requires Generating(p) && Placed(stack, targetStack, p.low, level)
      requires p.reps == classes.representatives && c < |p.reps| && level <= stackHeight - |tops| + 1
      requires Ready(p, c, Done(p.ops, classPositions.Keys)) && !p.reps[c].item.Undefined?
      requires OperandsReady(p, stackHeight, stack, c, tops) && |tops| == |p.reps[c].arguments|
      modifies this`generatedItems, this`stackHeight, this`stack, this`classPositions
      ensures Generating(p) && Placed(stack, targetStack, p.low, level)
      ensures classPositions.Keys == old(classPositions.Keys) + {c}
    {
      hide GenOk, Done, Placed, Ready, OperandsReady, Results, Trim, ClassLayout, StackAfter, LayoutOk;
      var item, n := classes.representatives[c].item, |classes.representatives[c].arguments|;
      ghost var g := View();
      ClassGen(p, g, c, tops);
      GenLayout(p, g);
      RemoveArguments(n, p.low, |p.reps|);
      PlacedAfter(g.stack, targetStack, p.low, level, g.height, n, item, c);
      generatedItems := generatedItems + [item];
      stackHeight := stackHeight - n + Results(item);
      AddResult(c, item, g, n);
    }

    /** Takes the n topmost elements from the stack and from the positions. */
    method RemoveArguments(n: nat, ghost low: int, ghost size: nat)
      requires LayoutOk(View(), low, size) && low <= stackHeight - n + 1
      modifies this`stack, this`classPositions
      ensures View() == Trim(old(View()), stackHeight - n)
    {
      hide Trim, Inverse;
      ghost var g := View();
      TrimNothing(g, low, size);
      for i := 0 to n
        invariant View() == Trim(g, g.height - i)
      {
        TrimOne(g, g.height - i);
        TrimKeeps(g, g.height - i);
        var id := stack[stackHeight - i];
        classPositions := classPositions[id := classPositions[id] - {stackHeight - i}];
        stack := stack - {stackHeight - i};
      }
    }

    /** Records the result of a class, or that it was generated if it has none. */
    method AddResult(c: Id, item: Item, ghost g: Layout, ghost n: nat)
      requires View() == Trim(g, g.height - n).(items := g.items + [item], height := g.height - n + Results(item))
      modifies this`stack, this`classPositions
      ensures View() == ClassLayout(g, item, c, n)
    {
      hide Trim, Results;
      if Results(item) == 1 {
        stack := stack[stackHeight := c];
        classPositions := classPositions[c := (if c in classPositions then classPositions[c] else {}) + {stackHeight}];
      } else {
        classPositions := classPositions[c := if c in classPositions then classPositions[c] else {}];
      }
    }

    /** Generates code for a class unless it has been generated before. Fails where the source
        throws: a sequenced class out of turn, an unknown that is not on the stack, a class that
        was removed too early, a stack access that is too deep. */
    method GenerateClassElement(c: Id, allowSequenced: bool, ghost p: Plan, ghost level: int) returns (ok: bool)
      requires Generating(p) && Placed(stack, targetStack, p.low, level) && p.reps == classes.representatives
      requires c < |p.reps|
      requires allowSequenced ==> Ready(p, c, Done(p.ops, classPositions.Keys))
      modifies this`generatedItems, this`stackHeight, this`stack, this`classPositions
      ensures ok ==> Generating(p) && Placed(stack, targetStack, p.low, level) && c in classPositions
      ensures ok ==> GeneratedPlain(old(classPositions.Keys), classPositions.Keys, p.reps, if allowSequenced then Some(c) else None)
      decreases c
    {
      hide GenOk, Placed, GeneratedPlain, Done, LoadReady, PlanOk;
      var removed := RemoveStackTopIfPossible(p, level);
      NothingGenerated(classPositions.Keys, p.reps, if allowSequenced then Some(c) else None);
      if c in classPositions { return classPositions[c] != {}; }
      var e := classes.representatives[c];
      if (!allowSequenced && e.sequenceNumber != 0) || e.item.Undefined? { return false; }
      NothingGenerated(classPositions.Keys, p.reps, None);
      GenLayout(p, View());
      PlanArguments(p, c);
      var i := |e.arguments|;
      while i > 0
        invariant 0 <= i <= |e.arguments| && Generating(p) && Placed(stack, targetStack, p.low, level)
        invariant GeneratedPlain(old(classPositions.Keys), classPositions.Keys, p.reps, None)
      {
        i := i - 1;
        ghost var before := classPositions.Keys;
        ok := GenerateClassElement(e.arguments[i], false, p, level);
        if !ok { return false; }
        GeneratedTwice(old(classPositions.Keys), before, classPositions.Keys, p.reps);
      }
      ok := ArrangeArguments(e.arguments, c, p, level);
      if !ok { return false; }
      ghost var tops := DropCommutedSwaps(c, p, level);
      DoneSame(p, old(classPositions.Keys), classPositions.Keys);
      GeneratedOne(old(classPositions.Keys), classPositions.Keys, c, p.reps, allowSequenced);
      EmitClass(c, tops, p, level);
      ok := true;
    }

    // ----- dependency analysis -----

    ghost predicate Analysing(ops: seq<StoreOperation>)
      reads this, classes
    {
      && classes.Valid() && OpsOk(ops, classes.representatives) && GroupsMatch(storeOperations, ops)
      && SequencesAscend(classes.representatives) && SequencesUpTo(classes.representatives, 2 * |ops| + 1)
    }

    /** Whatever was found to be needed is accounted for, except for the classes still being worked on. */
    ghost predicate Accounted(ops: seq<StoreOperation>, open: set<Id>)
      reads this, classes
    {
      Closed(classes.representatives, ops, classPositions.Keys, neededBy, open)
    }

    ghost predicate DependenciesSettled(ops: seq<StoreOperation>, c: Id)
      reads this, classes
    {
      Resolved(classes.representatives, ops, classPositions.Keys, neededBy, c)
    }

    /** Records everything that class c depends on: its arguments and, for a load, the latest earlier
        store to every slot that is not known to be independent. */
    method AddDependencies(c: Id, fuel: nat, ghost ops: seq<StoreOperation>, ghost open: set<Id>) returns (ok: bool)
      requires Analysing(ops) && Accounted(ops, open) && c < |classes.representatives|
      modifies this`neededBy, classes
      ensures ok ==> Analysing(ops) && Accounted(ops, open) && DependenciesSettled(ops, c)
      ensures ok ==> AddsPlain(old(classes.representatives), classes.representatives) && old(neededBy) <= neededBy
      decreases c, 2
    {
      hide Closed, Resolved, OpsOk, GroupsMatch, SequencesAscend, SequencesUpTo;
      if c in classPositions {
        PresentResolved(classes.representatives, ops, classPositions.Keys, neededBy, c);
        return true;
      }
      if exists d <- neededBy :: d.0 == c {
        NeededResolved(classes.representatives, ops, classPositions.Keys, neededBy, open, c);
        return true;
      }
      if classes.representatives[c].item.Undefined? { return false; }
      ClosedOpen(classes.representatives, ops, classPositions.Keys, neededBy, open, c);
      ok := AddArguments(c, fuel, ops, open + {c});
      if !ok { return false; }
      if IsLoad(classes.representatives[c]) {
        ok := AddStores(c, fuel, ops, open + {c});
        if !ok { return false; }
      }
      ResolvedNow(classes.representatives, ops, classPositions.Keys, neededBy, c);
      ClosedDone(classes.representatives, ops, classPositions.Keys, neededBy, open, c);
    }

    method AddArguments(c: Id, fuel: nat, ghost ops: seq<StoreOperation>, ghost open: set<Id>) returns (ok: bool)
      requires Analysing(ops) && Accounted(ops, open) && c < |classes.representatives| && c in open
      modifies this`neededBy, classes
      ensures ok ==> Analysing(ops) && Accounted(ops, open)
      ensures ok ==> AddsPlain(old(classes.representatives), classes.representatives) && old(neededBy) <= neededBy
      ensures ok ==> ArgumentsNeeded(classes.representatives[c].arguments, c, neededBy)
      decreases c, 1
    {
      hide Closed, Resolved, OpsOk, GroupsMatch, SequencesAscend, SequencesUpTo, ExprOk;
      var args := classes.representatives[c].arguments;
      ArgumentsBelow(classes.representatives, c);
      for i := 0 to |args|
        invariant Analysing(ops) && Accounted(ops, open)
        invariant AddsPlain(old(classes.representatives), classes.representatives) && old(neededBy) <= neededBy
        invariant ArgumentsNeeded(args[..i], c, neededBy)
      {
        ok := AddDependencies(args[i], fuel, ops, open);
        if !ok { return false; }
        ClosedInsert(classes.representatives, ops, classPositions.Keys, neededBy, open, args[i], c);
        neededBy := neededBy + {(args[i], c)};
      }
      assert args[..|args|] == args;
      ok := true;
    }

    /** The dependencies of a load on earlier stores. */
    method AddStores(c: Id, fuel: nat, ghost ops: seq<StoreOperation>, ghost open: set<Id>) returns (ok: bool)
      requires Analysing(ops) && Accounted(ops, open) && c < |classes.representatives| && c in open
      requires IsLoad(classes.representatives[c])
      modifies this`neededBy, classes
      ensures ok ==> Analysing(ops) && Accounted(ops, open)
      ensures ok ==> AddsPlain(old(classes.representatives), classes.representatives) && old(neededBy) <= neededBy
      ensures ok ==>
                |classes.representatives[c].arguments| > 0 && LoadResolved(classes.representatives, ops, neededBy, c)
      decreases c, 1
    {
      hide Closed, Resolved, OpsOk, GroupsMatch, SequencesAscend, SequencesUpTo, ExprOk, SlotSettled, Group;
      var target := LoadTarget(classes.representatives[c]);
      var slots := set k | k in storeOperations && k.0 == target :: k.1;
      var left := slots;
      LoadShaped(classes.representatives, c);
      while left != {}
        invariant Analysing(ops) && Accounted(ops, open) && left <= slots
        invariant AddsPlain(old(classes.representatives), classes.representatives) && old(neededBy) <= neededBy
        invariant |classes.representatives[c].arguments| == 1
        invariant forall s :: s in slots && s !in left ==> SlotSettled(classes.representatives, ops, neededBy, c, s)
        decreases left
      {
        ghost var before, needed := classes.representatives, neededBy;
        var s := Least(left);
        ok := AddStoresTo(c, s, target, fuel, ops, open);
        if !ok { return false; }
        forall x | x in slots && x !in left ensures SlotSettled(classes.representatives, ops, neededBy, c, x) {
          SlotSettledGrows(before, classes.representatives, ops, needed, neededBy, c, x);
        }
        left := left - {s};
      }
      forall j | 0 <= j < |ops| && ops[j].target == target
        ensures SlotSettled(classes.representatives, ops, neededBy, c, ops[j].slot)
      {
        GroupsHave(storeOperations, ops, j);
        assert (target, ops[j].slot) in storeOperations;
      }
      ok := true;
    }

    /** The dependency of a load on the stores to one slot. */
    method AddStoresTo(c: Id, s: Id, target: Target, fuel: nat, ghost ops: seq<StoreOperation>,
        ghost open: set<Id>) returns (ok: bool)
      requires Analysing(ops) && Accounted(ops, open) && c < |classes.representatives| && c in open
      requires IsLoad(classes.representatives[c]) && |classes.representatives[c].arguments| == 1
      requires target == LoadTarget(classes.representatives[c]) && (target, s) in storeOperations
      modifies this`neededBy, classes
      ensures ok ==> Analysing(ops) && Accounted(ops, open)
      ensures ok ==> AddsPlain(old(classes.representatives), classes.representatives) && old(neededBy) <= neededBy
      ensures ok ==> SlotSettled(classes.representatives, ops, neededBy, c, s)
      decreases c, 0
    {
      hide Closed, Resolved, OpsOk, GroupsMatch, SequencesAscend, SequencesUpTo, ExprOk, SlotSettled, Group;
      hide Independent;
      var e, storeOps := classes.representatives[c], storeOperations[(target, s)];
      GroupFacts(storeOperations, ops, classes.representatives, c, s);
      if storeOps[0].sequenceNumber > e.sequenceNumber {
        NothingEarlier(classes.representatives, ops, neededBy, c, s);
        return true;
      }
      ghost var reps := classes.representatives;
      var independent := KnownIndependent(target, s, e.arguments[0], fuel, ops, open);
      if independent.None? { return false; }
      if independent.value {
        IndependentSettled(classes.representatives, ops, neededBy, c, s);
        return true;
      }
      GroupFacts(storeOperations, ops, classes.representatives, c, s);
      var latest := LatestStore(storeOps, e.sequenceNumber);
      LatestIsEarlier(classes.representatives, ops, c, s, latest);
      ok := AddDependencies(latest, fuel, ops, open);
      if !ok { return false; }
      ClosedInsert(classes.representatives, ops, classPositions.Keys, neededBy, open, latest, c);
      neededBy := neededBy + {(latest, c)};
      LatestSettled(classes.representatives, ops, neededBy, c, s, latest);
    }

    /** Asks whether a store to one slot can affect a load from the other. */
    method KnownIndependent(target: Target, a: Id, b: Id, fuel: nat, ghost ops: seq<StoreOperation>,
        ghost open: set<Id>) returns (r: Option<bool>)
      requires Analysing(ops) && Accounted(ops, open) && a < |classes.representatives| && b < |classes.representatives|
      modifies classes
      ensures Analysing(ops) && Accounted(ops, open) && AddsPlain(old(classes.representatives), classes.representatives)
      ensures r == Some(true) ==> Independent(classes.representatives, target, a, b)
    {
      hide Closed, OpsOk, GroupsMatch, SequencesAscend, SequencesUpTo, ExprOk, Different, DifferentBy32, WellFormed;
      hide Recorded;
      ghost var reps := classes.representatives;
      if target == InStorage {
        r := classes.KnownToBeDifferent(a, b, fuel);
      } else {
        r := classes.KnownToBeDifferentBy32(a, b, fuel);
      }
      PlainKeepsSequences(reps, classes.representatives, 2 * |ops| + 1);
      OpsOkPrefix(ops, reps, classes.representatives);
      ClosedGrows(reps, classes.representatives, ops, classPositions.Keys, neededBy, open);
    }

    // ----- the whole block -----

    /** Puts the class for height h in its place; everything below is in place already. */
    method PlaceTarget(h: int, ghost p: Plan) returns (ok: bool)
      requires Generating(p) && Placed(stack, targetStack, p.low, h) && p.reps == classes.representatives
      requires h in targetStack && targetStack[h] < |p.reps|
      modifies this`generatedItems, this`stackHeight, this`stack, this`classPositions
      ensures ok ==> Generating(p) && Placed(stack, targetStack, p.low, h + 1)
      ensures ok ==> GeneratedPlain(old(classPositions.Keys), classPositions.Keys, p.reps, None)
    {
      hide GenOk, Placed, GeneratedPlain;
      var t := targetStack[h];
      if h in stack && stack[h] == t {
        NothingGenerated(classPositions.Keys, p.reps, None);
        PlacedNext(stack, targetStack, p.low, h);
        return true;
      }
      ok := GenerateClassElement(t, false, p, h);
      if !ok || classPositions[t] == {} { return false; }
      ghost var keys := classPositions.Keys;
      if h in classPositions[t] {
        HoldsAt(p, View(), t, h);
        PlacedNext(stack, targetStack, p.low, h);
        return true;
      }
      var position := ClassElementPosition(t).value;
      PositionHolds(p, t);
      if position < h {
        ok := CopyUp(position, p, h);
      } else {
        HoldsAt(p, View(), t, position);
        ok := RaiseAny(position, p, h);
      }
      if !ok { return false; }
      ok := DropTo(h, p);
    }

    /** Exchanges the top with a position above the placed part. */
    method RaiseAny(position: int, ghost p: Plan, ghost level: int) returns (ok: bool)
      requires Generating(p) && Placed(stack, targetStack, p.low, level) && position in stack
      requires level <= position <= stackHeight
      modifies this`generatedItems, this`stack, this`classPositions
      ensures ok ==> Generating(p) && Placed(stack, targetStack, p.low, level)
      ensures ok ==> classPositions.Keys == old(classPositions.Keys)
      ensures ok ==> stackHeight in stack && stack[stackHeight] == old(stack)[position]
    {
      hide Emits, PlanOk, Placed, Inverse;
      ghost var before := stack;
      PlacedAbove(stack, targetStack, p.low, level);
      ok := AppendOrRemoveSwap(position, p);
      if ok && position != stackHeight { PlacedExchange(before, targetStack, p.low, level, stackHeight, position); }
    }

    /** Exchanges the top, which holds the target class, with its place. */
    method DropTo(h: int, ghost p: Plan) returns (ok: bool)
      requires Generating(p) && Placed(stack, targetStack, p.low, h)
      requires h in targetStack && stackHeight in stack && stack[stackHeight] == targetStack[h]
      modifies this`generatedItems, this`stack, this`classPositions
      ensures ok ==> Generating(p) && Placed(stack, targetStack, p.low, h + 1)
      ensures ok ==> classPositions.Keys == old(classPositions.Keys)
    {
      hide Emits, PlanOk, Placed, Inverse;
      ghost var before := stack;
      PlacedAbove(stack, targetStack, p.low, h);
      ok := AppendOrRemoveSwap(h, p);
      if ok {
        if h != stackHeight { PlacedExchange(before, targetStack, p.low, h, stackHeight, h); }
        PlacedNext(stack, targetStack, p.low, h);
      }
    }

    /** Performs all needed operations on storage and memory, in sequence order. */
    method GenerateSequenced(ghost p: Plan) returns (ok: bool)
      requires Generating(p) && p.reps == classes.representatives && Placed(stack, targetStack, p.low, p.low)
      requires SequencePlan(p, classPositions.Keys, neededBy)
      modifies this`generatedItems, this`stackHeight, this`stack, this`classPositions
      ensures ok ==> Generating(p) && old(classPositions.Keys) <= classPositions.Keys
      ensures ok ==> Placed(stack, targetStack, p.low, p.low)
      ensures ok ==> AllGenerated(SequencedMembers(neededBy, p.reps), {}, classPositions.Keys)
    {
      hide GenOk, Placed, SequencePlan, SequencedMembers, Done, AllGenerated, Ready, DoneUpTo;
      var left := SequencedMembers(neededBy, classes.representatives);
      ghost var all, present := left, classPositions.Keys;
      SequenceStart(p, present, neededBy, all);
      while left != {}
        invariant Generating(p) && Placed(stack, targetStack, p.low, p.low) && left <= all
        invariant present <= classPositions.Keys
        invariant AllGenerated(all, left, classPositions.Keys) && DoneUpTo(p, classPositions.Keys, left)
        decreases left
      {
        var next := First(left);
        ghost var before := classPositions.Keys;
        GenLayout(p, View());
        if next.1 !in classPositions {
          NextReady(p, present, neededBy, all, left, classPositions.Keys, next);
          ok := GenerateClassElement(next.1, true, p, p.low);
          if !ok { return false; }
        } else {
          NothingGenerated(before, p.reps, Some(next.1));
        }
        NextDone(p, neededBy, all, left, before, classPositions.Keys, next);
        left := left - {next};
      }
      ok := true;
    }

    /** Records the positions of the initial stack. */
    method NotePositions()
      requires classPositions == map[] && forall h :: h in stack ==> IsPlain(classes.representatives, stack[h])
      modifies this`classPositions
      ensures Inverse(stack, classPositions) && forall id :: id in classPositions ==>
                IsPlain(classes.representatives, id)
    {
      var left := stack.Keys;
      while left != {}
        invariant left <= stack.Keys && Inverse(Restrict(stack, left), classPositions)
        invariant forall id :: id in classPositions ==> IsPlain(classes.representatives, id)
        decreases left
      {
        EmptyOrNot(left);
        var h: int :| h in left;
        RestrictLess(stack, left, h);
        PutInverse(Layout([], 0, Restrict(stack, left), classPositions), h, stack[h]);
        classPositions := classPositions[stack[h] := (if stack[h] in classPositions then classPositions[stack[h]] else {}) + {h}];
        left := left - {h};
      }
      assert Restrict(stack, {}) == stack;
    }

    /** The last store to every slot of a target is needed. */
    method AnalyseStores(target: Target, fuel: nat, ghost ops: seq<StoreOperation>) returns (ok: bool)
      requires Analysing(ops) && Accounted(ops, {})
      modifies this`neededBy, classes
      ensures ok ==> Analysing(ops) && Accounted(ops, {})
      ensures ok ==> AddsPlain(old(classes.representatives), classes.representatives) && old(neededBy) <= neededBy
      ensures ok ==> BacksSettled(classes.representatives, ops, classPositions.Keys, neededBy, target)
    {
      hide Closed, Resolved, OpsOk, GroupsMatch, SequencesAscend, SequencesUpTo, ExprOk, Group;
      var slots := set k | k in storeOperations && k.0 == target :: k.1;
      var left := slots;
      while left != {}
        invariant Analysing(ops) && Accounted(ops, {}) && left <= slots
        invariant AddsPlain(old(classes.representatives), classes.representatives) && old(neededBy) <= neededBy
        invariant forall s :: s in slots && s !in left ==>
                  BackSettled(classes.representatives, ops, classPositions.Keys, neededBy, target, s)
        decreases left
      {
        ghost var before, needed := classes.representatives, neededBy;
        var s := Least(left);
        var storeOps := storeOperations[(target, s)];
        BackOf(storeOperations, ops, classes.representatives, target, s);
        ok := AddDependencies(storeOps[|storeOps| - 1].expression, fuel, ops, {});
        if !ok { return false; }
        forall x | x in slots && x !in left
          ensures BackSettled(classes.representatives, ops, classPositions.Keys, neededBy, target, x)
        {
          BackSettledGrows(before, classes.representatives, ops, classPositions.Keys, needed, neededBy, target, x);
        }
        left := left - {s};
      }
      forall j | 0 <= j < |ops| && ops[j].target == target
        ensures BackSettled(classes.representatives, ops, classPositions.Keys, neededBy, target, ops[j].slot)
      {
        GroupsHave(storeOperations, ops, j);
        assert (target, ops[j].slot) in storeOperations;
      }
      ok := true;
    }

    /** The target classes are needed. */
    method AnalyseTargets(low: int, high: int, fuel: nat, ghost ops: seq<StoreOperation>) returns (ok: bool)
      requires Analysing(ops) && Accounted(ops, {}) && low <= high + 1
      requires forall h :: h in targetStack <==> low <= h <= high
      requires forall h :: h in targetStack ==> targetStack[h] < |classes.representatives|
      modifies this`neededBy, this`finalClasses, classes
      ensures ok ==> Analysing(ops) && Accounted(ops, {})
      ensures ok ==> AddsPlain(old(classes.representatives), classes.representatives) && old(neededBy) <= neededBy
      ensures ok ==> forall h :: h in targetStack ==> targetStack[h] in finalClasses
    {
      hide Closed, Resolved, OpsOk, GroupsMatch, SequencesAscend, SequencesUpTo, WellFormed, Recorded;
      for h := low to high + 1
        invariant Analysing(ops) && Accounted(ops, {})
        invariant AddsPlain(old(classes.representatives), classes.representatives) && old(neededBy) <= neededBy
        invariant forall k :: k in targetStack && k < h ==> targetStack[k] in finalClasses
      {
        finalClasses := finalClasses + {targetStack[h]};
        ok := AddDependencies(targetStack[h], fuel, ops, {});
        if !ok { return false; }
      }
      ok := true;
    }

    /** Code for a block: from any stack that matches the initial layout it leads to the target
        stack and to the world after all recorded stores. None stands for an exception. */
    method GenerateCode(initialSequenceNumber: nat, initialStackHeight: int, initialStack: map<int, Id>,
        targetStackContents: map<int, Id>,
                        fuel: nat, ghost ops: seq<StoreOperation>, low: int, high: int) returns (code: Option<seq<Item>>)
      requires Analysing(ops) && generatedItems == [] && classPositions == map[] && neededBy == {} && finalClasses == {}
      requires BlockShape(classes.representatives, initialStackHeight, initialStack, targetStackContents, low, high)
      requires StoresRecorded(classes.representatives, ops)
      modifies this, classes
      ensures code.Some? ==> classes.Valid() && AddsPlain(old(classes.representatives), classes.representatives)
      ensures code.Some? ==> CodeFor(Plan(classes.representatives, ops, low), code.value, high, targetStackContents)
    {
      hide Closed, OpsOk, GroupsMatch, SequencesAscend, SequencesUpTo, StoresRecorded, GenOk, Placed, CodeFor;
      hide BacksSettled, BlockShape;
      hide SequencePlan, WellFormed, Recorded, Done, Resolved, ExprOk;
      stackHeight, stack, targetStack := initialStackHeight, initialStack, targetStackContents;
      ghost var reps0 := classes.representatives;
      InitialIsPlain(reps0, initialStackHeight, initialStack, targetStack, low, high);
      NotePositions();
      ghost var present := classPositions.Keys;
      ClosedEmpty(reps0, ops, present);
      var ok := Analyse(low, high, fuel, ops);
      if !ok { return None; }
      if exists x <- SequencedMembers(neededBy, classes.representatives) :: x.0 < initialSequenceNumber { return None; }
      ghost var p := Plan(classes.representatives, ops, low);
      RecordedStill(reps0, classes.representatives, ops);
      ReadyToGenerate(p, reps0, View(), initialStack, targetStack, high, present, neededBy);
      ok := GenerateSequenced(p);
      if !ok { return None; }
      ok := PlaceAll(low, high, p);
      if !ok { return None; }
      GenLayout(p, View());
      FinalHeightIs(reps0, initialStackHeight, initialStack, targetStack, low, high);
      if FinalHeight(initialStackHeight, initialStack, targetStack) != stackHeight { return None; }
      CodeIsRight(p, View(), targetStack, high, present, neededBy);
      code := Some(generatedItems);
    }

    method Analyse(low: int, high: int, fuel: nat, ghost ops: seq<StoreOperation>) returns (ok: bool)
      requires Analysing(ops) && Accounted(ops, {}) && low <= high + 1
      requires forall h :: h in targetStack <==> low <= h <= high
      requires forall h :: h in targetStack ==> targetStack[h] < |classes.representatives|
      modifies this`neededBy, this`finalClasses, classes
      ensures ok ==>
                Analysing(ops) && Accounted(ops, {}) && AddsPlain(old(classes.representatives), classes.representatives)
      ensures ok ==> forall h :: h in targetStack ==> targetStack[h] in finalClasses
      ensures ok ==> BacksSettled(classes.representatives, ops, classPositions.Keys, neededBy, InMemory)
      ensures ok ==> BacksSettled(classes.representatives, ops, classPositions.Keys, neededBy, InStorage)
    {
      hide Closed, OpsOk, GroupsMatch, SequencesAscend, SequencesUpTo, BacksSettled;
      ok := AnalyseStores(InMemory, fuel, ops);
      if !ok { return false; }
      ghost var r1, n1 := classes.representatives, neededBy;
      ok := AnalyseStores(InStorage, fuel, ops);
      if !ok { return false; }
      ghost var r2, n2 := classes.representatives, neededBy;
      ok := AnalyseTargets(low, high, fuel, ops);
      if !ok { return false; }
      BacksSettledGrow(r1, classes.representatives, ops, classPositions.Keys, n1, neededBy, InMemory);
      BacksSettledGrow(r2, classes.representatives, ops, classPositions.Keys, n2, neededBy, InStorage);
    }

    /** Places all targets from the bottom up and removes what is left on top. */
    method PlaceAll(low: int, high: int, ghost p: Plan) returns (ok: bool)
      requires Generating(p) && p.reps == classes.representatives && p.low == low <= high + 1
      requires Placed(stack, targetStack, low, low)
      requires forall h :: h in targetStack <==> low <= h <= high
      requires forall h :: h in targetStack ==> targetStack[h] < |classes.representatives|
      modifies this`generatedItems, this`stackHeight, this`stack, this`classPositions
      ensures ok ==> Generating(p) && Placed(stack, targetStack, low, high + 1)
      ensures ok ==> old(classPositions.Keys) <= classPositions.Keys
    {
      hide GenOk, Placed;
      for h := low to high + 1
        invariant Generating(p) && Placed(stack, targetStack, low, h) && old(classPositions.Keys) <= classPositions.Keys
      {
        ok := PlaceTarget(h, p);
        if !ok { return false; }
      }
      var removed := RemoveStackTopIfPossible(p, high + 1);
      GenLayout(p, View());
      while removed
        invariant low - 1 <= stackHeight && Generating(p) && Placed(stack, targetStack, low, high + 1)
        invariant old(classPositions.Keys) <= classPositions.Keys
        decreases stackHeight - low + 1, removed
      {
        removed := RemoveStackTopIfPossible(p, high + 1);
        GenLayout(p, View());
      }
      ok := true;
    }
  }

  /** The stacks a block starts and ends with: known from `low` up, unknown before the block runs. */
  ghost predicate BlockShape(reps: seq<Expr>, initialHeight: int, initial: map<int, Id>, target: map<int, Id>,
      low: int, high: int) {
    && initialHeight == 0 && low <= 1 && low <= high + 1
    && (forall h :: h in initial <==> low <= h <= initialHeight)
    && (forall h :: h in initial ==> initial[h] < |reps| && reps[initial[h]] == Expr(Undefined(h), [], 0))
    && (forall h :: h in target <==> low <= h <= high)
    && (forall h :: h in target ==> target[h] < |reps|)
  }

  /** Run from any start that matches the block, the code ends with the target stack and the final world. */
  ghost predicate CodeFor(p: Plan, code: seq<Item>, high: int, target: map<int, Id>) {
    && PlanOk(p) && NoTags(code) && TagsOfClasses(p.reps, code)
    && forall c :: Consistent(p, c) ==> RunsTo(p, c, code, high, target)
  }

  ghost predicate RunsTo(p: Plan, c: Context, code: seq<Item>, high: int, target: map<int, Id>) {
    && WellFormed(p.reps) && ElementsOk(target, high, |p.reps|) && |c.history| == |p.ops| + 1
    && var r := RunBlock(c.env, code, State(c.stack, c.history[0]));
    && r.Some? && StackMatches(high, target, Values(c, p.reps), c.stack, r.value.stack) && r.value.world == c.history[|p.ops|]
  }

  lemma {:induction false} InitialIsPlain(reps: seq<Expr>, initialHeight: int, initial: map<int, Id>, target: map<int,
      Id>, low: int, high: int)
    requires BlockShape(reps, initialHeight, initial, target, low, high)
    ensures forall h :: h in initial ==> IsPlain(reps, initial[h])
    ensures forall h :: h in target <==> low <= h <= high
    ensures forall h :: h in target ==> target[h] < |reps|
    ensures low <= high + 1
  {
  }

  lemma {:induction false} ClosedEmpty(reps: seq<Expr>, ops: seq<StoreOperation>, present: set<Id>)
    ensures Closed(reps, ops, present, {}, {})
  {
  }

  lemma {:induction false} ReadyToGenerate(p: Plan, reps0: seq<Expr>, g: Layout, initial: map<int, Id>,
      target: map<int, Id>, high: int, present: set<Id>, needed: set<(Id, Id)>)
    requires PlanOk(p) && reps0 <= p.reps && BlockShape(reps0, g.height, initial, target, p.low, high)
    requires g.items == [] && g.stack == initial && Inverse(g.stack, g.positions) && g.positions.Keys == present
    requires forall id :: id in present ==> IsPlain(reps0, id)
    requires SequencesAscend(p.reps) && SequencesUpTo(p.reps, 2 * |p.ops| + 1) && StoresRecorded(p.reps, p.ops)
    requires Closed(p.reps, p.ops, present, needed, {})
    ensures GenOk(p, g) && Placed(g.stack, target, p.low, p.low) && SequencePlan(p, present, needed)
  {
    hide Emits, PlanOk, Closed, Inverse, StoresRecorded, SequencesAscend, SequencesUpTo;
    InitialEmits(p, reps0, initial, target, high);
    DoneNothing(p, present);
  }

  lemma {:induction false} RecordedStill(reps: seq<Expr>, more: seq<Expr>, ops: seq<StoreOperation>)
    requires StoresRecorded(reps, ops) && AddsPlain(reps, more) && WellFormed(more)
    ensures StoresRecorded(more, ops)
  {
    forall i | 0 <= i < |more| && IsStore(more[i]) ensures RecordedStore(more, ops, i) {
      assert ExprOk(more[i], i);
      assert RecordedStore(reps, ops, i);
    }
  }

  lemma {:induction false} FinalHeightIs(reps: seq<Expr>, initialHeight: int, initial: map<int, Id>, target: map<int,
      Id>, low: int, high: int)
    requires BlockShape(reps, initialHeight, initial, target, low, high)
    ensures FinalHeight(initialHeight, initial, target) == high || (target == map[] && high == low - 1 && FinalHeight(initialHeight, initial, target) == high)
  {
    EmptyOrNot(target.Keys);
    EmptyOrNot(initial.Keys);
    if target != map[] {
      assert high in target;
    } else {
      assert low !in target;
      if initial != map[] { assert low in initial; } else { assert low !in initial; }
    }
  }

  /** All targets are in place, nothing else is left, and every last store was executed. */
  lemma {:induction false} CodeIsRight(p: Plan, g: Layout, target: map<int, Id>, high: int, present: set<Id>,
      needed: set<(Id, Id)>)
    requires GenOk(p, g) && g.height == high && Placed(g.stack, target, p.low, high + 1)
    requires (forall h :: h in target <==> p.low <= h <= high)
    requires SequencePlan(p, present, needed) && present <= g.positions.Keys
    requires AllGenerated(SequencedMembers(needed, p.reps), {}, g.positions.Keys)
    requires BacksSettled(p.reps, p.ops, present, needed, InMemory)
    requires BacksSettled(p.reps, p.ops, present, needed, InStorage)
    ensures CodeFor(p, g.items, high, target)
  {
    hide Consistent, RunsTo, SequencePlan, AllGenerated, BacksSettled, PlanOk, SequencedMembers, Done, BacksDone;
    StackIsTarget(g, target, p.low, |p.reps|, high);
    var done := Done(p.ops, g.positions.Keys);
    AllBacksDone(p, g.positions.Keys, present, needed);
    forall c | Consistent(p, c) ensures RunsTo(p, c, g.items, high, target) {
      assert GoodRun(p, c, g.items, high, target, done);
      GoodRunEnds(p, c, g.items, high, target, done);
    }
  }

  lemma {:induction false} StackIsTarget(g: Layout, target: map<int, Id>, low: int, n: nat, high: int)
    requires LayoutOk(g, low, n) && g.height == high && Placed(g.stack, target, low, high + 1) && forall h :: h in target <==> low <= h <= high
    ensures g.stack == target
  {
    assert forall h: int :: h in g.stack.Keys <==> h in target.Keys;
    assert g.stack.Keys == target.Keys;
    forall h | h in g.stack ensures g.stack[h] == target[h] { assert low <= h < high + 1; }
  }

  lemma {:induction false} GoodRunEnds(p: Plan, c: Context, items: seq<Item>, high: int, target: map<int, Id>,
      done: set<nat>)
    requires Consistent(p, c) && GoodRun(p, c, items, high, target, done) && BacksDone(p.ops, done)
    ensures RunsTo(p, c, items, high, target)
  {
    hide ContextOk, StackMatches, WellFormed, OpsOk, BacksDone, RunBlock;
    FinalWorld(p, c, done);
  }

  lemma {:induction false} AllBacksDone(p: Plan, generated: set<Id>, present: set<Id>, needed: set<(Id, Id)>)
    requires SequencePlan(p, present, needed) && present <= generated
    requires AllGenerated(SequencedMembers(needed, p.reps), {}, generated)
    requires BacksSettled(p.reps, p.ops, present, needed, InMemory)
    requires BacksSettled(p.reps, p.ops, present, needed, InStorage)
    ensures BacksDone(p.ops, Done(p.ops, generated))
  {
    hide Closed, SequencesAscend, SequencesUpTo, StoresRecorded, WellFormed, Resolved, SequencedMembers, Group;
    hide AllGenerated;
    forall j | 0 <= j < |p.ops| && (var g := Group(p.ops, p.ops[j].target, p.ops[j].slot); g != [] && g[|g| - 1] == p.ops[j])
      ensures j in Done(p.ops, generated)
    {
      assert BackSettled(p.reps, p.ops, present, needed, p.ops[j].target, p.ops[j].slot);
      StoreGenerated(p, generated, present, needed, j);
    }
  }

  lemma {:induction false} StoreGenerated(p: Plan, generated: set<Id>, present: set<Id>, needed: set<(Id, Id)>, j: nat)
    requires PlanOk(p) && j < |p.ops| && present <= generated
    requires AllGenerated(SequencedMembers(needed, p.reps), {}, generated)
    requires Resolved(p.reps, p.ops, present, needed, p.ops[j].expression)
    ensures p.ops[j].expression in generated
  {
    hide WellFormed;
    assert StoreOk(p.ops[j], p.reps);
    var id := p.ops[j].expression;
    if id !in present {
      var d := (p.reps[id].arguments[0], id);
      assert d in needed;
      assert (p.reps[id].sequenceNumber, id) in SequencedMembers(needed, p.reps);
    }
  }

  lemma {:induction false} DoneNothing(p: Plan, present: set<Id>)
    requires PlanOk(p) && forall id :: id in present ==> IsPlain(p.reps, id)
    ensures Done(p.ops, present) == {}
  {
    forall j | 0 <= j < |p.ops| ensures p.ops[j].expression !in present { assert StoreOk(p.ops[j], p.reps); }
  }

  /** Before anything is emitted, the stack is what the block starts with. */
  lemma {:induction false} InitialEmits(p: Plan, reps0: seq<Expr>, initial: map<int, Id>, target: map<int, Id>,
      high: int)
    requires reps0 <= p.reps && BlockShape(reps0, 0, initial, target, p.low, high)
    ensures Emits(p, [], 0, initial, {})
  {
    hide Consistent, GoodRun;
    forall c | Consistent(p, c) ensures GoodRun(p, c, [], 0, initial, {}) {
      InitialRun(p, c, reps0, initial, target, high);
    }
  }

  lemma {:induction false} InitialRun(p: Plan, c: Context, reps0: seq<Expr>, initial: map<int, Id>, target: map<int,
      Id>, high: int)
    requires Consistent(p, c) && reps0 <= p.reps && BlockShape(reps0, 0, initial, target, p.low, high)
    ensures GoodRun(p, c, [], 0, initial, {})
  {
    hide LinkedEnv, NumericWorld, WellFormed, OpsOk, HistoryIs;
    HistoryNonEmpty(c);
    var vals := Values(c, p.reps);
    forall h | h in initial ensures Holds(c.stack, c.stack, h, vals[initial[h]]) {
      ClassValue(c, p.reps, initial[h]);
      assert vals[initial[h]] == InitialWord(c.stack, h);
    }
    ReplayNothing(c.history[0], WritesOf(p, vals), |p.ops|);
  }

  lemma {:induction false} ReplayNothing(w: World, writes: seq<Write>, n: nat)
    requires n <= |writes|
    ensures Replay(w, writes, {}, n) == w
    decreases n
  {
    if n > 0 { ReplayNothing(w, writes, n - 1); }
  }

  function Restrict(stack: map<int, Id>, left: set<int>): map<int, Id> { map h | h in stack && h !in left :: stack[h] }

  lemma {:induction false} RestrictLess(stack: map<int, Id>, left: set<int>, h: int)
    requires h in left && h in stack
    ensures Restrict(stack, left - {h}) == Restrict(stack, left)[h := stack[h]]
  {
  }

  predicate IsPlain(reps: seq<Expr>, id: Id) { id < |reps| && reps[id].sequenceNumber == 0 }

  /** The last store to a slot and everything it depends on is recorded. */
  ghost predicate BackSettled(reps: seq<Expr>, ops: seq<StoreOperation>, present: set<Id>, needed: set<(Id, Id)>,
      t: Target, s: Id) {
    var g := Group(ops, t, s);
    g != [] && Resolved(reps, ops, present, needed, g[|g| - 1].expression)
  }

  ghost predicate BacksSettled(reps: seq<Expr>, ops: seq<StoreOperation>, present: set<Id>, needed: set<(Id, Id)>,
      t: Target) {
    forall j :: 0 <= j < |ops| && ops[j].target == t ==> BackSettled(reps, ops, present, needed, t, ops[j].slot)
  }

  lemma {:induction false} BackSettledGrows(reps: seq<Expr>, more: seq<Expr>, ops: seq<StoreOperation>,
      present: set<Id>, needed: set<(Id, Id)>, needed': set<(Id, Id)>, t: Target, s: Id)
    requires WellFormed(more) && reps <= more && needed <= needed' && BackSettled(reps, ops, present, needed, t, s)
    ensures BackSettled(more, ops, present, needed', t, s)
  {
    hide Resolved, WellFormed, Group;
    var g := Group(ops, t, s);
    ResolvedGrows(reps, more, ops, present, needed, needed', g[|g| - 1].expression);
  }

  lemma {:induction false} BacksSettledGrow(reps: seq<Expr>, more: seq<Expr>, ops: seq<StoreOperation>,
      present: set<Id>, needed: set<(Id, Id)>, needed': set<(Id, Id)>, t: Target)
    requires WellFormed(more) && reps <= more && needed <= needed' && BacksSettled(reps, ops, present, needed, t)
    ensures BacksSettled(more, ops, present, needed', t)
  {
    hide BackSettled, WellFormed;
    forall j | 0 <= j < |ops| && ops[j].target == t ensures BackSettled(more, ops, present, needed', t, ops[j].slot) {
      BackSettledGrows(reps, more, ops, present, needed, needed', t, ops[j].slot);
    }
  }

  lemma {:induction false} BackOf(groups: map<(Target, Id), seq<StoreOperation>>, ops: seq<StoreOperation>,
      reps: seq<Expr>, t: Target, s: Id)
    requires GroupsMatch(groups, ops) && OpsOk(ops, reps) && (t, s) in groups
    ensures groups[(t, s)] == Group(ops, t, s) != []
    ensures Group(ops, t, s)[|Group(ops, t, s)| - 1].expression < |reps|
  {
    assert Group(ops, t, s) != [];
    GroupMember(ops, t, s);
    var l := GroupLast(ops, t, s);
    assert StoreOk(ops[l], reps);
  }

  // ----- sequence order -----

  predicate Before(x: (nat, Id), y: (nat, Id)) { x.0 < y.0 || (x.0 == y.0 && x.1 <= y.1) }

  predicate IsFirst(s: set<(nat, Id)>, x: (nat, Id)) { x in s && forall y :: y in s ==> Before(x, y) }

  function First(s: set<(nat, Id)>): (x: (nat, Id))
    requires s != {}
    ensures IsFirst(s, x)
  {
    FirstExists(s);
    var x :| IsFirst(s, x);
    x
  }

  lemma {:induction false} FirstExists(s: set<(nat, Id)>)
    requires s != {}
    ensures exists x :: IsFirst(s, x)
    decreases s
  {
    var y: (nat, Id) :| y in s;
    var rest := s - {y};
    if rest == {} {
      assert s == {y};
      assert IsFirst(s, y);
    } else {
      FirstExists(rest);
      var z :| IsFirst(rest, z);
      var m := if Before(y, z) then y else z;
      forall x | x in s ensures Before(m, x) { if x != y { assert x in rest; } }
      assert IsFirst(s, m);
    }
  }

  /** The sequenced classes among those that are needed or need something. */
  function SequencedMembers(needed: set<(Id, Id)>, reps: seq<Expr>): set<(nat, Id)> {
    (set d | d in needed && d.0 < |reps| && reps[d.0].sequenceNumber != 0 :: (reps[d.0].sequenceNumber, d.0)) +
    (set d | d in needed && d.1 < |reps| && reps[d.1].sequenceNumber != 0 :: (reps[d.1].sequenceNumber, d.1))
  }

  /** Every store class is a recorded store. */
  predicate StoresRecorded(reps: seq<Expr>, ops: seq<StoreOperation>) {
    forall i :: 0 <= i < |reps| && IsStore(reps[i]) ==> RecordedStore(reps, ops, i)
  }

  predicate RecordedStore(reps: seq<Expr>, ops: seq<StoreOperation>, i: Id)
    requires i < |reps|
  {
    var j := reps[i].sequenceNumber / 2 - 1;
    0 <= j < |ops| && ops[j].expression == i
  }

  /** What the dependency analysis leaves for the generator. */
  ghost predicate SequencePlan(p: Plan, present: set<Id>, needed: set<(Id, Id)>) {
    && PlanOk(p) && SequencesAscend(p.reps) && SequencesUpTo(p.reps, 2 * |p.ops| + 1) && StoresRecorded(p.reps, p.ops)
    && Closed(p.reps, p.ops, present, needed, {}) && (forall id :: id in present ==> IsPlain(p.reps, id))
  }

  predicate AllGenerated(all: set<(nat, Id)>, left: set<(nat, Id)>, generated: set<Id>) {
    forall x :: x in all && x !in left ==> x.1 in generated
  }

  /** No store was executed that comes after something still to be done. */
  predicate DoneUpTo(p: Plan, generated: set<Id>, left: set<(nat, Id)>) {
    forall j, x :: 0 <= j < |p.ops| && p.ops[j].expression in generated && x in left ==> p.ops[j].sequenceNumber <= x.0
  }

  lemma {:induction false} SequenceStart(p: Plan, present: set<Id>, needed: set<(Id, Id)>, all: set<(nat, Id)>)
    requires SequencePlan(p, present, needed)
    ensures AllGenerated(all, all, present) && DoneUpTo(p, present, all)
  {
    hide Closed;
    forall j | 0 <= j < |p.ops| ensures p.ops[j].expression !in present { assert StoreOk(p.ops[j], p.reps); }
  }

  /** The next class in sequence order may be generated. */
  lemma {:induction false} NextReady(p: Plan, present: set<Id>, needed: set<(Id, Id)>, all: set<(nat, Id)>,
      left: set<(nat, Id)>, generated: set<Id>, next: (nat, Id))
    requires SequencePlan(p, present, needed) && all == SequencedMembers(needed, p.reps) && left <= all
    requires IsFirst(left, next)
    requires AllGenerated(all, left, generated) && DoneUpTo(p, generated, left) && next.1 !in generated
    requires present <= generated
    ensures next.1 < |p.reps| && Ready(p, next.1, Done(p.ops, generated))
  {
    hide Closed, AllGenerated, DoneUpTo, LoadReady, WellFormed, SequencesUpTo, SequencesAscend, StoresRecorded, Before;
    NextIsSequenced(p, needed, all, next);
    if IsLoad(p.reps[next.1]) {
      NextLoadReady(p, present, needed, all, left, generated, next);
    } else {
      NextStoreReady(p, generated, left, next);
    }
  }

  lemma {:induction false} NextIsSequenced(p: Plan, needed: set<(Id, Id)>, all: set<(nat, Id)>, next: (nat, Id))
    requires WellFormed(p.reps) && all == SequencedMembers(needed, p.reps) && next in all
    ensures next.1 < |p.reps| && next.0 == p.reps[next.1].sequenceNumber
    ensures (IsLoad(p.reps[next.1]) || IsStore(p.reps[next.1]))
    ensures exists d :: d in needed && (d.0 == next.1 || d.1 == next.1)
  {
    assert ExprOk(p.reps[next.1], next.1);
  }

  lemma {:induction false} NextStoreReady(p: Plan, generated: set<Id>, left: set<(nat, Id)>, next: (nat, Id))
    requires PlanOk(p) && StoresRecorded(p.reps, p.ops) && DoneUpTo(p, generated, left) && next in left
    requires next.1 !in generated
    requires next.1 < |p.reps| && next.0 == p.reps[next.1].sequenceNumber && IsStore(p.reps[next.1])
    ensures IsStoreTurn(p, next.1, Done(p.ops, generated))
  {
    hide WellFormed;
    assert RecordedStore(p.reps, p.ops, next.1);
    var j := p.reps[next.1].sequenceNumber / 2 - 1;
    assert StoreOk(p.ops[j], p.reps);
    forall i | i in Done(p.ops, generated) ensures i < j {
      assert p.ops[i].sequenceNumber <= next.0;
    }
  }

  lemma {:induction false} NextLoadReady(p: Plan, present: set<Id>, needed: set<(Id, Id)>, all: set<(nat, Id)>,
      left: set<(nat, Id)>, generated: set<Id>, next: (nat, Id))
    requires SequencePlan(p, present, needed) && all == SequencedMembers(needed, p.reps) && left <= all
    requires IsFirst(left, next)
    requires AllGenerated(all, left, generated) && DoneUpTo(p, generated, left) && next.1 !in generated
    requires present <= generated
    requires next.1 < |p.reps| && next.0 == p.reps[next.1].sequenceNumber && IsLoad(p.reps[next.1])
    requires exists d :: d in needed && (d.0 == next.1 || d.1 == next.1)
    ensures LoadReady(p, next.1, Done(p.ops, generated))
  {
    hide LoadReady, WellFormed, StoresRecorded, LoadResolved, AllGenerated, DoneUpTo, IsFirst, OpsOk;
    var id, done := next.1, Done(p.ops, generated);
    assert Resolved(p.reps, p.ops, present, needed, id);
    var q := p.reps[id].sequenceNumber / 2;
    LoadInOrder(p, needed, all, left, generated, next);
    ResolvedLoadReady(p, needed, id, done, q);
  }

  lemma {:induction false} LoadInOrder(p: Plan, needed: set<(Id, Id)>, all: set<(nat, Id)>, left: set<(nat, Id)>,
      generated: set<Id>, next: (nat, Id))
    requires PlanOk(p) && SequencesAscend(p.reps) && all == SequencedMembers(needed, p.reps) && left <= all
    requires IsFirst(left, next)
    requires AllGenerated(all, left, generated) && DoneUpTo(p, generated, left)
    requires next.1 < |p.reps| && next.0 == p.reps[next.1].sequenceNumber && IsLoad(p.reps[next.1])
    ensures InOrder(p, needed, next.1, Done(p.ops, generated))
  {
    hide WellFormed, OpsOk, SequencesAscend, AllGenerated, SequencedMembers;
    var id, done, n := next.1, Done(p.ops, generated), p.reps[next.1].sequenceNumber;
    forall j | j in done ensures j < |p.ops| && 2 * j + 2 < n {
      PlanNumbered(p);
      LoadsAreOdd(p.reps, id);
      assert p.ops[j].sequenceNumber <= next.0;
    }
    forall j | 0 <= j < |p.ops| && 2 * j + 2 < n && (p.ops[j].expression, id) in needed ensures j in done {
      EarlierDone(p, needed, all, left, generated, next, j);
    }
  }

  lemma {:induction false} LoadsAreOdd(reps: seq<Expr>, id: Id)
    requires SequencesAscend(reps) && id < |reps| && IsLoad(reps[id])
    ensures reps[id].sequenceNumber % 2 == 1
  {
  }

  lemma {:induction false} EarlierDone(p: Plan, needed: set<(Id, Id)>, all: set<(nat, Id)>, left: set<(nat, Id)>,
      generated: set<Id>, next: (nat, Id), j: nat)
    requires PlanOk(p) && all == SequencedMembers(needed, p.reps) && left <= all && IsFirst(left, next)
    requires AllGenerated(all, left, generated)
    requires j < |p.ops| && 2 * j + 2 < next.0 && (p.ops[j].expression, next.1) in needed
    ensures p.ops[j].expression in generated
  {
    hide WellFormed;
    var x, d := (p.ops[j].sequenceNumber, p.ops[j].expression), (p.ops[j].expression, next.1);
    assert StoreOk(p.ops[j], p.reps) && d in needed;
    assert x in all;
    assert !Before(next, x);
  }

  lemma {:induction false} NextDone(p: Plan, needed: set<(Id, Id)>, all: set<(nat, Id)>, left: set<(nat, Id)>,
      before: set<Id>, after: set<Id>, next: (nat, Id))
    requires PlanOk(p) && AllGenerated(all, left, before) && DoneUpTo(p, before, left) && left <= all
    requires IsFirst(left, next)
    requires all == SequencedMembers(needed, p.reps) && GeneratedPlain(before, after, p.reps, Some(next.1))
    requires next.1 in after
    ensures AllGenerated(all, left - {next}, after) && DoneUpTo(p, after, left - {next})
  {
    hide WellFormed;
    NextIsSequenced(p, needed, all, next);
    forall j, x | 0 <= j < |p.ops| && p.ops[j].expression in after && x in left - {next}
      ensures p.ops[j].sequenceNumber <= x.0
    {
      assert StoreOk(p.ops[j], p.reps);
      assert Before(next, x);
    }
  }

  lemma {:induction false} PlacedNext(stack: map<int, Id>, target: map<int, Id>, low: int, h: int)
    requires Placed(stack, target, low, h) && h in stack && h in target && stack[h] == target[h]
    ensures Placed(stack, target, low, h + 1)
  {
  }

  lemma {:induction false} HoldsAt(p: Plan, g: Layout, id: Id, h: int)
    requires GenOk(p, g) && id in g.positions && h in g.positions[id]
    ensures h in g.stack && g.stack[h] == id && h <= g.height
  {
    assert g.positions[id] == PositionsIn(g.stack, id);
  }

  lemma {:induction false} OpsOkPrefix(ops: seq<StoreOperation>, reps: seq<Expr>, more: seq<Expr>)
    requires OpsOk(ops, reps) && reps <= more
    ensures OpsOk(ops, more)
  {
    forall j | 0 <= j < |ops|
      ensures StoreOk(ops[j], more) && ops[j].sequenceNumber == 2 * j + 2
    { assert StoreOk(ops[j], reps); }
  }

  /** The last store of a group before a sequence number; the first one if there is none. */
  method LatestStore(storeOps: seq<StoreOperation>, sequence: nat) returns (latest: Id)
    requires |storeOps| > 0
    ensures latest == LatestIn(storeOps, sequence).expression
  {
    latest := storeOps[0].expression;
    for i := 1 to |storeOps|
      invariant latest == LatestIn(storeOps[..i], sequence).expression
    {
      assert storeOps[..i + 1][..i] == storeOps[..i];
      if storeOps[i].sequenceNumber < sequence { latest := storeOps[i].expression; }
    }
    assert storeOps[..|storeOps|] == storeOps;
  }

  function LatestIn(storeOps: seq<StoreOperation>, sequence: nat): StoreOperation
    requires |storeOps| > 0
    decreases |storeOps|
  {
    var last := storeOps[|storeOps| - 1];
    if |storeOps| == 1 || last.sequenceNumber < sequence then last else LatestIn(storeOps[..|storeOps| - 1], sequence)
  }

  /** If later elements come too late, the latest one is the last of the early ones. */
  lemma {:induction false} LatestInPrefix(storeOps: seq<StoreOperation>, k: nat, sequence: nat)
    requires 0 < k <= |storeOps| && storeOps[k - 1].sequenceNumber < sequence
    requires forall i :: k <= i < |storeOps| ==> storeOps[i].sequenceNumber >= sequence
    ensures LatestIn(storeOps, sequence) == storeOps[k - 1]
    decreases |storeOps|
  {
    if k < |storeOps| { LatestInPrefix(storeOps[..|storeOps| - 1], k, sequence); }
  }

  lemma {:induction false} GroupsHave(groups: map<(Target, Id), seq<StoreOperation>>, ops: seq<StoreOperation>, j: nat)
    requires GroupsMatch(groups, ops) && j < |ops|
    ensures (ops[j].target, ops[j].slot) in groups
  {
    GroupHas(ops, j);
  }

  lemma {:induction false} SlotSettledGrows(reps: seq<Expr>, more: seq<Expr>, ops: seq<StoreOperation>,
      needed: set<(Id, Id)>, needed': set<(Id, Id)>, id: Id, s: Id)
    requires WellFormed(more) && reps <= more && needed <= needed' && id < |reps| && IsLoad(reps[id])
    requires |reps[id].arguments| > 0
    requires SlotSettled(reps, ops, needed, id, s)
    ensures SlotSettled(more, ops, needed', id, s)
  {
    hide WellFormed, Independent, Group;
    var t := LoadTarget(reps[id]);
    if Independent(reps, t, s, reps[id].arguments[0]) { IndependentPrefix(reps, more, t, s, reps[id].arguments[0]); }
  }

  lemma {:induction false} ArgumentsBelow(reps: seq<Expr>, c: Id)
    requires WellFormed(reps) && c < |reps|
    ensures AllBelow(reps[c].arguments, c)
  {
    assert ExprOk(reps[c], c);
  }

  lemma {:induction false} PresentResolved(reps: seq<Expr>, ops: seq<StoreOperation>, present: set<Id>,
      needed: set<(Id, Id)>, c: Id)
    requires c < |reps| && c in present
    ensures Resolved(reps, ops, present, needed, c)
  {
  }

  lemma {:induction false} NeededResolved(reps: seq<Expr>, ops: seq<StoreOperation>, present: set<Id>,
      needed: set<(Id, Id)>, open: set<Id>, c: Id)
    requires Closed(reps, ops, present, needed, open) && exists d :: d in needed && d.0 == c
    ensures Resolved(reps, ops, present, needed, c)
  {
    hide Resolved;
  }

  lemma {:induction false} ResolvedNow(reps: seq<Expr>, ops: seq<StoreOperation>, present: set<Id>,
      needed: set<(Id, Id)>, c: Id)
    requires c < |reps| && ArgumentsNeeded(reps[c].arguments, c, needed)
    requires IsLoad(reps[c]) ==> |reps[c].arguments| > 0 && LoadResolved(reps, ops, needed, c)
    ensures Resolved(reps, ops, present, needed, c)
  {
  }

  lemma {:induction false} NothingGenerated(keys: set<Id>, reps: seq<Expr>, asked: Option<Id>)
    ensures GeneratedPlain(keys, keys, reps, asked)
  {
  }

  lemma {:induction false} GeneratedTwice(first: set<Id>, second: set<Id>, third: set<Id>, reps: seq<Expr>)
    requires GeneratedPlain(first, second, reps, None) && GeneratedPlain(second, third, reps, None)
    ensures GeneratedPlain(first, third, reps, None)
  {
  }

  lemma {:induction false} GeneratedOne(first: set<Id>, second: set<Id>, c: Id, reps: seq<Expr>, allowSequenced: bool)
    requires c < |reps| && GeneratedPlain(first, second, reps, None) && (allowSequenced || reps[c].sequenceNumber == 0)
    ensures GeneratedPlain(first, second + {c}, reps, if allowSequenced then Some(c) else None)
  {
  }

  lemma {:induction false} PlanArguments(p: Plan, c: Id)
    requires PlanOk(p) && c < |p.reps|
    ensures AllBelow(p.reps[c].arguments, c)
  {
    assert ExprOk(p.reps[c], c);
  }

  lemma {:induction false} TrimKeeps(g: Layout, top: int)
    ensures Trim(g, top).items == g.items && Trim(g, top).height == g.height
  {
  }

  lemma {:induction false} PlacedAfter(stack: map<int, Id>, target: map<int, Id>, low: int, level: int, h: int, n: nat,
      item: Item, id: Id)
    requires Placed(stack, target, low, level) && level <= h - n + 1
    ensures Placed(StackAfter(stack, h, n, item, id), target, low, level)
  {
  }

  lemma {:induction false} CommutativeArguments(p: Plan, c: Id)
    requires PlanOk(p) && c < |p.reps|
    ensures IsCommutativeItem(p.reps[c].item) ==> |p.reps[c].arguments| == 2
  {
    assert ExprOk(p.reps[c], c);
  }

  lemma {:induction false} OperandsExchanged(h: int, s: map<int, Id>, tops: seq<Id>)
    requires |tops| == 2 && OperandsKnown(h, s, tops)
    ensures h in s && h - 1 in s && OperandsKnown(h, Exchange(s, h, h - 1), [tops[1], tops[0]])
  {
    assert ElementIs(s, h - 0, tops[0]) && ElementIs(s, h - 1, tops[1]);
  }

  lemma {:induction false} PlacedAbove(stack: map<int, Id>, target: map<int, Id>, low: int, level: int)
    requires Placed(stack, target, low, level)
    ensures low <= level
  {
  }

  lemma {:induction false} GenLayout(p: Plan, g: Layout)
    requires GenOk(p, g)
    ensures LayoutOk(g, p.low, |p.reps|) && PlanOk(p)
  {
  }

  // ----- the stores a load waits for -----

  ghost predicate LoadAt(reps: seq<Expr>, ops: seq<StoreOperation>, c: Id) {
    && WellFormed(reps) && OpsOk(ops, reps) && SequencesAscend(reps) && SequencesUpTo(reps, 2 * |ops| + 1)
    && c < |reps| && IsLoad(reps[c]) && |reps[c].arguments| == 1
  }

  lemma {:induction false} LoadNumber(reps: seq<Expr>, ops: seq<StoreOperation>, c: Id)
    requires LoadAt(reps, ops, c)
    ensures var q := reps[c].sequenceNumber / 2; reps[c].sequenceNumber == 2 * q + 1 && q <= |ops|
    ensures Numbered(ops)
  {
    hide WellFormed;
  }

  lemma {:induction false} GroupFacts(groups: map<(Target, Id), seq<StoreOperation>>, ops: seq<StoreOperation>,
      reps: seq<Expr>, c: Id, s: Id)
    requires LoadAt(reps, ops, c) && GroupsMatch(groups, ops) && (LoadTarget(reps[c]), s) in groups
    ensures groups[(LoadTarget(reps[c]), s)] == Group(ops, LoadTarget(reps[c]), s) != []
    ensures s < |reps| && reps[c].arguments[0] < |reps|
  {
    var t := LoadTarget(reps[c]);
    assert Group(ops, t, s) != [];
    GroupMember(ops, t, s);
    var j :| 0 <= j < |ops| && SameGroup(ops[j], t, s);
    assert StoreOk(ops[j], reps);
    LoadShaped(reps, c);
  }

  lemma {:induction false} GroupMember(ops: seq<StoreOperation>, t: Target, s: Id)
    requires Group(ops, t, s) != []
    ensures exists j :: 0 <= j < |ops| && SameGroup(ops[j], t, s)
    decreases |ops|
  {
    var n := |ops| - 1;
    if SameGroup(ops[n], t, s) {
    } else {
      GroupMember(ops[..n], t, s);
      var j :| 0 <= j < n && SameGroup(ops[..n][j], t, s);
      assert SameGroup(ops[j], t, s);
    }
  }

  /** No store of the group comes before the load. */
  lemma {:induction false} NothingEarlier(reps: seq<Expr>, ops: seq<StoreOperation>, needed: set<(Id, Id)>, c: Id,
      s: Id)
    requires LoadAt(reps, ops, c) && Group(ops, LoadTarget(reps[c]), s) != []
    requires Group(ops, LoadTarget(reps[c]), s)[0].sequenceNumber > reps[c].sequenceNumber
    ensures SlotSettled(reps, ops, needed, c, s)
  {
    hide WellFormed, OpsOk, SequencesAscend, SequencesUpTo, Independent, Group;
    LoadNumber(reps, ops, c);
    GroupPrefix(ops, reps[c].sequenceNumber / 2, LoadTarget(reps[c]), s);
  }

  lemma {:induction false} IndependentSettled(reps: seq<Expr>, ops: seq<StoreOperation>, needed: set<(Id, Id)>, c: Id,
      s: Id)
    requires LoadAt(reps, ops, c) && Independent(reps, LoadTarget(reps[c]), s, reps[c].arguments[0])
    ensures SlotSettled(reps, ops, needed, c, s)
  {
    LoadNumber(reps, ops, c);
  }

  /** The latest store before the load, by sequence numbers and by position. */
  lemma {:induction false} LatestIsLast(reps: seq<Expr>, ops: seq<StoreOperation>, c: Id, s: Id)
    requires LoadAt(reps, ops, c) && Group(ops, LoadTarget(reps[c]), s) != []
    requires Group(ops, LoadTarget(reps[c]), s)[0].sequenceNumber <= reps[c].sequenceNumber
    ensures var t, q := LoadTarget(reps[c]), reps[c].sequenceNumber / 2;
            q <= |ops| && var early := Group(ops[..q], t, s);
            early != [] && LatestIn(Group(ops, t, s), reps[c].sequenceNumber) == early[|early| - 1] && early[|early| - 1] in ops[..q]
  {
    hide WellFormed, OpsOk, SequencesAscend, SequencesUpTo, Group;
    LoadNumber(reps, ops, c);
    var t, q := LoadTarget(reps[c]), reps[c].sequenceNumber / 2;
    GroupPrefix(ops, q, t, s);
    var early := Group(ops[..q], t, s);
    GroupNumbers(ops[..q], t, s);
    GroupNumbers(ops, t, s);
    var first :| 0 <= first < |ops| && ops[first] == Group(ops, t, s)[0];
    assert ops[first].sequenceNumber == 2 * first + 2;
    LatestInPrefix(Group(ops, t, s), |early|, reps[c].sequenceNumber);
  }

  lemma {:induction false} LatestIsEarlier(reps: seq<Expr>, ops: seq<StoreOperation>, c: Id, s: Id, latest: Id)
    requires LoadAt(reps, ops, c) && Group(ops, LoadTarget(reps[c]), s) != []
    requires Group(ops, LoadTarget(reps[c]), s)[0].sequenceNumber <= reps[c].sequenceNumber
    requires latest == LatestIn(Group(ops, LoadTarget(reps[c]), s), reps[c].sequenceNumber).expression
    ensures latest < c
  {
    hide Group, WellFormed;
    LatestIsLast(reps, ops, c, s);
    var q := reps[c].sequenceNumber / 2;
    var j :| 0 <= j < q && ops[j] == LatestIn(Group(ops, LoadTarget(reps[c]), s), reps[c].sequenceNumber);
    assert StoreOk(ops[j], reps);
  }

  lemma {:induction false} LatestSettled(reps: seq<Expr>, ops: seq<StoreOperation>, needed: set<(Id, Id)>, c: Id,
      s: Id, latest: Id)
    requires LoadAt(reps, ops, c) && Group(ops, LoadTarget(reps[c]), s) != [] && (latest, c) in needed
    requires Group(ops, LoadTarget(reps[c]), s)[0].sequenceNumber <= reps[c].sequenceNumber
    requires latest == LatestIn(Group(ops, LoadTarget(reps[c]), s), reps[c].sequenceNumber).expression
    ensures SlotSettled(reps, ops, needed, c, s)
  {
    hide LoadAt, Group, Independent;
    LatestIsLast(reps, ops, c, s);
  }
}
