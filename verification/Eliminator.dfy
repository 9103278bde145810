/** Common subexpression elimination of one block. */
module Eliminators {
  import opened Words
  import opened Instructions
  import opened Items
  import opened Machine
  import opened Rules
  import opened Expressions
  import opened Classes
  import opened Knowledge
  import opened Steps
  import opened Tracking
  import opened KnownStates
  import opened Replays
  import opened Layouts
  import opened Dependencies
  import opened Generation
  import opened CodeGenerators
  import opened Segments

  // ----- what feeding a block establishes -----

  ghost predicate RecordedHistory(c: Context, reps: seq<Expr>, ops: seq<StoreOperation>) {
    PlanOk(Plan(reps, ops, 0)) && HistoryIs(c.history, WritesOf(Plan(reps, ops, 0), Values(c, reps)))
  }

  /** A run of the fed items, seen through the symbolic state. */
  ghost predicate Explains(c: Context, k: Facts, reps: seq<Expr>, ops: seq<StoreOperation>, env: Env, s: State,
      m: State) {
    && c.env == env && c.stack == s.stack && |c.history| > 0 && c.history[0] == s.world
    && Tracks(k, reps, c, m) && RecordedHistory(c, reps, ops)
  }

  ghost predicate Explained(k: Facts, reps: seq<Expr>, ops: seq<StoreOperation>, env: Env, s: State, m: State) {
    exists c :: Explains(c, k, reps, ops, env, s, m)
  }

  /** Every run of the fed items, on a stack that reaches down to `depth`, is explained by the symbolic
      state and the recorded stores. */
  ghost predicate Simulates(items: seq<Item>, depth: int, k: Facts, reps: seq<Expr>, ops: seq<StoreOperation>) {
    forall env, s, m :: LinkedEnv(env) && NumericState(s) && RunBlock(env, items, s) == Some(m) && 1 <= |s.stack| + depth ==>
      Explained(k, reps, ops, env, s, m)
  }

  lemma {:induction false} SimulatesNothing()
    ensures Simulates([], 1, Facts(0, map[], 1, map[], map[]), [], [])
  {
    hide LinkedEnv, NumericWorld;
    forall env, s, m | LinkedEnv(env) && NumericState(s) && RunBlock(env, [], s) == Some(m)
      ensures Explained(Facts(0, map[], 1, map[], map[]), [], [], env, s, m)
    {
      var c := Context(env, s.stack, [s.world]);
      assert Explains(c, Facts(0, map[], 1, map[], map[]), [], [], env, s, m);
    }
  }

  /** The writes do not change when classes are added. */
  lemma {:induction false} WritesPrefix(reps: seq<Expr>, more: seq<Expr>, ops: seq<StoreOperation>, vals: seq<Word>,
      vals': seq<Word>)
    requires PlanOk(Plan(reps, ops, 0)) && PlanOk(Plan(more, ops, 0)) && reps <= more
    requires |vals| == |reps| && |vals'| == |more| && vals <= vals'
    ensures WritesOf(Plan(more, ops, 0), vals') == WritesOf(Plan(reps, ops, 0), vals)
  {
    hide WellFormed;
    forall j | 0 <= j < |ops| ensures WriteOf(Plan(more, ops, 0), vals', j) == WriteOf(Plan(reps, ops, 0), vals, j) {
      assert StoreOk(ops[j], reps);
    }
  }

  lemma {:induction false} PlanPrefix(reps: seq<Expr>, more: seq<Expr>, ops: seq<StoreOperation>)
    requires PlanOk(Plan(reps, ops, 0)) && reps <= more && WellFormed(more)
    ensures PlanOk(Plan(more, ops, 0))
  {
    OpsOkPrefix(ops, reps, more);
  }

  lemma {:induction false} HistoryKept(c: Context, reps: seq<Expr>, more: seq<Expr>, ops: seq<StoreOperation>)
    requires RecordedHistory(c, reps, ops) && reps <= more && WellFormed(more)
    ensures RecordedHistory(c, more, ops)
  {
    hide WellFormed, OpsOk, HistoryIs;
    PlanPrefix(reps, more, ops);
    ValuesPrefix(c, reps, more);
    WritesPrefix(reps, more, ops, Values(c, reps), Values(c, more));
  }

  /** An item that records no store. */
  lemma {:induction false} ExplainNext(c: Context, k: Facts, reps: seq<Expr>, ops: seq<StoreOperation>, env: Env,
      s: State, m: State,
                                       item: Item, k': Facts, more: seq<Expr>, m': State)
    requires Explains(c, k, reps, ops, env, s, m) && ExecItem(env, item, m) == Some(m') && reps <= more
    requires WellFormed(more)
    requires StepSound(k, reps, item, k', more, None)
    ensures Explains(c, k', more, ops, env, s, m')
  {
    hide ExecItem, Tracks, WellFormed, RecordedHistory, StoreTracked;
    HistoryKept(c, reps, more, ops);
  }

  /** An item that records a store: one more world in the history. */
  lemma {:induction false} ExplainStore(c: Context, k: Facts, reps: seq<Expr>, ops: seq<StoreOperation>, env: Env,
      s: State, m: State,
                                        item: Item, k': Facts, more: seq<Expr>, m': State, op: StoreOperation)
    requires Explains(c, k, reps, ops, env, s, m) && ExecItem(env, item, m) == Some(m') && reps <= more
    requires WellFormed(more)
    requires StepSound(k, reps, item, k', more, Some(op)) && op.sequenceNumber == 2 * |ops| + 2
    ensures Explains(Extended(c, m'.world), k', more, ops + [op], env, s, m')
  {
    hide ExecItem, Tracks, WellFormed, RecordedHistory, StoreOk, StoreWorld;
    assert StoreTracked(k', more, op, c, m, m');
    StoreHistory(c, k, reps, ops, m, more, m'.world, op);
  }

  lemma {:induction false} StoreHistory(c: Context, k: Facts, reps: seq<Expr>, ops: seq<StoreOperation>, m: State,
      more: seq<Expr>, w: World, op: StoreOperation)
    requires Tracks(k, reps, c, m) && RecordedHistory(c, reps, ops) && reps <= more && WellFormed(more)
    requires StoreOk(op, more) && op.sequenceNumber == 2 * |ops| + 2
    requires w == StoreWorld(m.world, op, more, Values(Extended(c, w), more))
    ensures RecordedHistory(Extended(c, w), more, ops + [op])
  {
    var c' := Extended(c, w);
    var p, p' := Plan(reps, ops, 0), Plan(more, ops + [op], 0);
    MoreStores(c, k, reps, ops, m, more, w, op);
    hide Tracks, WellFormed, OpsOk, StoreOk, StoreWorld, ApplyWrite, Values, WritesOf, HistoryIs;
    HistoryGrows(c.history, WritesOf(p, Values(c, reps)), w, WriteOf(p', Values(c', more), |ops|));
  }

  lemma {:induction false} HistoryGrows(history: seq<World>, writes: seq<Write>, w: World, write: Write)
    requires HistoryIs(history, writes) && w == ApplyWrite(history[|writes|], write)
    ensures HistoryIs(history + [w], writes + [write])
  {
    hide ApplyWrite;
    var writes' := writes + [write];
    forall j | 0 <= j < |writes'| ensures Follows(history + [w], writes', j) {
      if j < |writes| { assert Follows(history, writes, j); }
    }
  }

  lemma {:induction false} MoreStores(c: Context, k: Facts, reps: seq<Expr>, ops: seq<StoreOperation>, m: State,
      more: seq<Expr>, w: World, op: StoreOperation)
    requires Tracks(k, reps, c, m) && RecordedHistory(c, reps, ops) && reps <= more && WellFormed(more)
    requires StoreOk(op, more) && op.sequenceNumber == 2 * |ops| + 2
    requires w == StoreWorld(m.world, op, more, Values(Extended(c, w), more))
    ensures PlanOk(Plan(more, ops + [op], 0))
    ensures var p, p' := Plan(reps, ops, 0), Plan(more, ops + [op], 0);
            var writes, writes' := WritesOf(p, Values(c, reps)), WritesOf(p', Values(Extended(c, w), more));
            writes' == writes + [WriteOf(p', Values(Extended(c, w), more), |ops|)]
            && w == ApplyWrite(c.history[|ops|], WriteOf(p', Values(Extended(c, w), more), |ops|))
  {
    hide WellFormed, StackMatches, StorageMatches, MemoryMatches, SequencesUpTo, LinkedEnv, NumericWorld, HistoryIs;
    var c' := Extended(c, w);
    PlanPrefix(reps, more, ops);
    assert PlanOk(Plan(more, ops + [op], 0));
    assert |c.history| == |ops| + 1 by { HistoryLength(c, reps, ops); }
    ValuesExtended(c, w, reps);
    ValuesPrefix(c', reps, more);
    WritesPrefix(reps, more, ops, Values(c', reps), Values(c', more));
    var writes, writes' := WritesOf(Plan(more, ops, 0), Values(c', more)), WritesOf(Plan(more, ops + [op], 0),
        Values(c', more));
    forall j | 0 <= j < |ops| ensures writes'[j] == writes[j] {
      assert WriteOf(Plan(more, ops + [op], 0), Values(c', more), j) == WriteOf(Plan(more, ops, 0), Values(c', more), j);
    }
    assert writes' == writes + [WriteOf(Plan(more, ops + [op], 0), Values(c', more), |ops|)];
  }

  lemma {:induction false} HistoryLength(c: Context, reps: seq<Expr>, ops: seq<StoreOperation>)
    requires RecordedHistory(c, reps, ops)
    ensures |c.history| == |ops| + 1
  {
  }

  lemma {:induction false} SimulatesStep(items: seq<Item>, item: Item, depth: int, k: Facts, reps: seq<Expr>,
      ops: seq<StoreOperation>,
                                         k': Facts, more: seq<Expr>, op: Option<StoreOperation>)
    requires Simulates(items, depth, k, reps, ops) && StepSound(k, reps, item, k', more, op) && reps <= more
    requires WellFormed(more)
    requires op.Some? ==> op.value.sequenceNumber == 2 * |ops| + 2
    ensures Simulates(items + [item], depth, k', more, if op.Some? then ops + [op.value] else ops)
  {
    hide LinkedEnv, NumericState, Explains, StepSound, WellFormed, ExecItem;
    var ops' := if op.Some? then ops + [op.value] else ops;
    forall env, s, m' | LinkedEnv(env) && NumericState(s) && RunBlock(env, items + [item], s) == Some(m') && 1 <= |s.stack| + depth
      ensures Explained(k', more, ops', env, s, m')
    {
      RunBlockSnoc(env, items, item, s);
      var m := RunBlock(env, items, s).value;
      assert Explained(k, reps, ops, env, s, m);
      var c :| Explains(c, k, reps, ops, env, s, m);
      if op.None? {
        ExplainNext(c, k, reps, ops, env, s, m, item, k', more, m');
      } else {
        ExplainStore(c, k, reps, ops, env, s, m, item, k', more, m', op.value);
      }
    }
  }

  /** Looking at a height only adds knowledge, if the stack is deep enough. */
  lemma {:induction false} SimulatesNote(items: seq<Item>, depth: int, h: int, k: Facts, reps: seq<Expr>,
      ops: seq<StoreOperation>, k': Facts, more: seq<Expr>)
    requires Simulates(items, depth, k, reps, ops) && LearnsDownTo(h, k, reps, k', more) && reps <= more
    requires WellFormed(more)
    ensures Simulates(items, if h < depth then h else depth, k', more, ops)
  {
    hide LinkedEnv, NumericState, WellFormed, Tracks, RecordedHistory;
    var d := if h < depth then h else depth;
    forall env, s, m | LinkedEnv(env) && NumericState(s) && RunBlock(env, items, s) == Some(m) && 1 <= |s.stack| + d
      ensures Explained(k', more, ops, env, s, m)
    {
      assert Explained(k, reps, ops, env, s, m);
      var c :| Explains(c, k, reps, ops, env, s, m);
      HistoryKept(c, reps, more, ops);
      assert Explains(c, k', more, ops, env, s, m);
    }
  }

  lemma {:induction false} SimulatesMore(items: seq<Item>, depth: int, k: Facts, reps: seq<Expr>,
      ops: seq<StoreOperation>, more: seq<Expr>)
    requires Simulates(items, depth, k, reps, ops) && AddsPlain(reps, more) && WellFormed(more)
    requires SequencesUpTo(more, k.sequence)
    ensures Simulates(items, depth, k, more, ops)
  {
    hide LinkedEnv, NumericState, WellFormed, Tracks, RecordedHistory, SequencesUpTo;
    forall env, s, m | LinkedEnv(env) && NumericState(s) && RunBlock(env, items, s) == Some(m) && 1 <= |s.stack| + depth
      ensures Explained(k, more, ops, env, s, m)
    {
      assert Explained(k, reps, ops, env, s, m);
      var c :| Explains(c, k, reps, ops, env, s, m);
      TracksMore(k, reps, more, c, m);
      HistoryKept(c, reps, more, ops);
      assert Explains(c, k, more, ops, env, s, m);
    }
  }

  lemma {:induction false} RecordedMore(reps: seq<Expr>, more: seq<Expr>, ops: seq<StoreOperation>,
      op: Option<StoreOperation>)
    requires StoresRecorded(reps, ops) && OpsOk(ops, reps) && reps <= more
    requires RecordedAt(op, 2 * |ops| + 1, if op.Some? then 2 * |ops| + 3 else 2 * |ops| + 1, reps, more)
    ensures var ops' := if op.Some? then ops + [op.value] else ops; StoresRecorded(more, ops') && OpsOk(ops', more)
  {
    var ops' := if op.Some? then ops + [op.value] else ops;
    forall i | 0 <= i < |more| && IsStore(more[i]) ensures RecordedStore(more, ops', i) {
      if i < |reps| { assert RecordedStore(reps, ops, i); } else { assert op.Some? && i == op.value.expression; }
    }
    forall j | 0 <= j < |ops'| ensures StoreOk(ops'[j], more) && ops'[j].sequenceNumber == 2 * j + 2 {
      if j < |ops| { assert StoreOk(ops[j], reps); }
    }
  }

  /** Only tags that were fed have a class. */
  ghost predicate TagsFed(reps: seq<Expr>, fed: seq<Item>) {
    forall c :: 0 <= c < |reps| && IsPushTag(reps[c].item) ==> reps[c].item in fed
  }

  lemma {:induction false} TagsFedNext(reps: seq<Expr>, more: seq<Expr>, fed: seq<Item>, item: Item)
    requires TagsFed(reps, fed) && reps <= more && AddsNoTagBut(item, reps, more)
    ensures TagsFed(more, fed + [item])
  {
  }

  lemma {:induction false} TagsFedPlain(reps: seq<Expr>, more: seq<Expr>, fed: seq<Item>)
    requires TagsFed(reps, fed) && AddsPlain(reps, more)
    ensures TagsFed(more, fed)
  {
  }

  class CommonSubexpressionEliminator {
    const state: KnownState
    var storeOperations: seq<StoreOperation>
    var breakingItem: Option<Item>
    ghost var fed: seq<Item>
    ghost var depth: int

    ghost predicate Valid()
      reads this, state, state.classes
    {
      && state.Valid() && state.sequenceNumber == 2 * |storeOperations| + 1
      && OpsOk(storeOperations, state.Table()) && StoresRecorded(state.Table(), storeOperations)
      && Simulates(fed, depth, state.View(), state.Table(), storeOperations)
      && (forall i :: 0 <= i < |fed| ==> Trackable(fed[i])) && TagsFed(state.Table(), fed)
    }

    constructor ()
      ensures Valid() && fed == [] && breakingItem == None && depth == 1 && fresh(state) && fresh(state.classes)
    {
      var classes := new ExpressionClasses();
      state := new KnownState(classes);
      storeOperations, breakingItem, fed, depth := [], None, [], 1;
      new;
      SimulatesNothing();
    }

    /** Feeds one item of the block; false means that the bound on simplification was hit. */
    method FeedItem(item: Item, fuel: nat) returns (ok: bool)
      requires Valid() && Trackable(item)
      modifies this`storeOperations, this`fed, state, state.classes
      ensures ok ==> Valid() && fed == old(fed) + [item]
    {
      hide OpsOk, StoresRecorded, StepSound, Trackable, FactsOk, NoGaps, SequencesUpTo, SequencesAscend, RecordedAt;
      ghost var k, reps, ops := state.View(), state.Table(), storeOperations;
      var op;
      ok, op := state.FeedItem(item, fuel);
      if !ok { return false; }
      RecordedNumber(op, k.sequence, state.sequenceNumber, reps, state.Table());
      RecordedMore(reps, state.Table(), ops, op);
      SimulatesStep(fed, item, depth, k, reps, ops, state.View(), state.Table(), op);
      TagsFedNext(reps, state.Table(), fed, item);
      fed := fed + [item];
      if op.Some? { storeOperations := storeOperations + [op.value]; }
    }

    /** Feeds items up to the first one that ends the block, which is kept as breaking item. KECCAK256
        and malformed operations are outside the model and make this fail. */
    method FeedItems(items: seq<Item>, from: nat, msizeImportant: bool, fuel: nat) returns (ok: bool, end: nat)
      requires Valid() && fed == [] && breakingItem == None && from <= |items|
      modifies this`storeOperations, this`fed, this`breakingItem, state, state.classes
      ensures ok ==> Valid() && from <= end <= |items|
      ensures ok ==> items[from..end] == fed + OptionItem(breakingItem)
      ensures ok && from < |items| ==> from < end
      ensures ok && breakingItem.Some? ==> BreaksBlock(breakingItem.value, msizeImportant)
    {
      hide OpsOk, StoresRecorded, Simulates, KnownState.Valid;
      end := from;
      while end < |items| && !BreaksBlock(items[end], msizeImportant)
        invariant Valid() && from <= end <= |items| && items[from..end] == fed && breakingItem == None
      {
        if !Trackable(items[end]) { return false, end; }
        ok := FeedItem(items[end], fuel);
        if !ok { return false, end; }
        assert items[from..end + 1] == items[from..end] + [items[end]];
        end := end + 1;
      }
      if end < |items| {
        breakingItem := Some(items[end]);
        assert items[from..end + 1] == items[from..end] + [items[end]];
        end := end + 1;
      } else {
        assert fed + [] == fed;
      }
      ok := true;
    }

    /** Looks at the second stack element, which a breaking JUMPI or RETURN needs to be there. */
    method SecondElement() returns (id: Id)
      requires Valid() && depth == 1
      modifies this`depth, state, state.classes
      ensures Valid() && state.stackHeight == old(state.stackHeight) && depth <= 1
      ensures state.stackHeight - 1 in state.stackElements
      ensures state.stackElements[state.stackHeight - 1] == id < |state.Table()|
      ensures depth == if state.stackHeight - 1 < 1 then state.stackHeight - 1 else 1
    {
      hide OpsOk, StoresRecorded, FactsOk, NoGaps, SequencesUpTo, SequencesAscend, LearnsDownTo, Trackable, Simulates;
      ghost var k, reps := state.View(), state.Table();
      id := state.StackElement(state.stackHeight - 1);
      ElementId(state.View(), state.stackHeight - 1, |state.Table()|);
      SimulatesNote(fed, depth, state.stackHeight - 1, k, reps, storeOperations, state.View(), state.Table());
      RecordedPlain(reps, state.Table(), storeOperations);
      TagsFedPlain(reps, state.Table(), fed);
      depth := if state.stackHeight - 1 < depth then state.stackHeight - 1 else depth;
    }

    /** Adds nothing but plain classes to the table. */
    method ConditionNonZero(id: Id, fuel: nat) returns (r: Option<bool>)
      requires Valid() && id < |state.Table()|
      modifies state.classes
      ensures Valid() && old(state.Table()) <= state.Table()
      ensures r == Some(true) ==> NeverZero(state.Table(), id)
    {
      hide OpsOk, StoresRecorded, NoGaps, SequencesUpTo, SequencesAscend, Trackable, Simulates;
      ghost var reps := state.Table();
      r := state.classes.KnownNonZero(id, fuel);
      PlainKeepsSequences(reps, state.Table(), state.sequenceNumber);
      SimulatesMore(fed, depth, state.View(), reps, storeOperations, state.Table());
      RecordedPlain(reps, state.Table(), storeOperations);
      FactsMore(state.View(), |reps|, |state.Table()|);
      TagsFedPlain(reps, state.Table(), fed);
    }

    method ConditionZero(id: Id) returns (r: bool)
      requires Valid() && id < |state.Table()|
      ensures r ==> AlwaysZero(state.Table(), id)
    {
      hide OpsOk, StoresRecorded, NoGaps, SequencesUpTo, SequencesAscend, Trackable, Simulates, Recorded;
      r := state.classes.KnownZero(id);
    }

    /** Drops a jump that is never taken, turns a jump that is always taken into an unconditional
        one, and a return of nothing into a stop. */
    method OptimizeBreakingItem(fuel: nat) returns (ok: bool)
      requires Valid() && depth == 1
      modifies this, state, state.classes
      ensures ok ==>
                Valid() && SameFlow(old(fed) + OptionItem(old(breakingItem)), fed + OptionItem(breakingItem), depth)
      ensures ok ==> breakingItem == old(breakingItem) || (NoTags(OptionItem(old(breakingItem))) && NoTags(OptionItem(breakingItem)))
      ensures ok ==> NoNewTags(old(fed), fed) && NoNewTags(OptionItem(old(breakingItem)), OptionItem(breakingItem))
    {
      hide OpsOk, StoresRecorded, Simulates, KnownState.Valid, Trackable, SameFlow, NeverZero, AlwaysZero;
      ghost var items, k0, reps0, ops := fed, state.View(), state.Table(), storeOperations;
      SameFlowSame(fed + OptionItem(breakingItem));
      StackItemsTrackable();
      if breakingItem == Some(Operation(JUMPI)) {
        var condition := SecondElement();
        var nonZero := ConditionNonZero(condition, fuel);
        if nonZero.None? { return false; }
        ghost var g := Guard(items, depth, k0, reps0, state.View(), state.Table(), ops);
        if nonZero.value {
          JumpTaken(g, condition);
          ok := FeedTwo(Operation(SWAP1), Operation(POP), fuel);
          breakingItem := Some(Operation(JUMP));
        } else {
          var zero := ConditionZero(condition);
          if zero {
            JumpNotTaken(g, condition);
            ok := FeedTwo(Operation(POP), Operation(POP), fuel);
            breakingItem := None;
          } else {
            JumpKept(g, Operation(JUMPI));
            ok := true;
          }
        }
      } else if breakingItem == Some(Operation(RETURN)) {
        var size := SecondElement();
        ghost var g := Guard(items, depth, k0, reps0, state.View(), state.Table(), ops);
        var zero := ConditionZero(size);
        if zero {
          ReturnNothing(g, size);
          ok := FeedTwo(Operation(POP), Operation(POP), fuel);
          breakingItem := Some(Operation(STOP));
        } else {
          JumpKept(g, Operation(RETURN));
          ok := true;
        }
      } else {
        ok := true;
      }
    }

    method FeedTwo(first: Item, second: Item, fuel: nat) returns (ok: bool)
      requires Valid() && Trackable(first) && Trackable(second)
      modifies this`storeOperations, this`fed, state, state.classes
      ensures ok ==> Valid() && fed == old(fed) + [first, second]
    {
      hide OpsOk, StoresRecorded, Simulates, KnownState.Valid;
      ok := FeedItem(first, fuel);
      if !ok { return false; }
      ok := FeedItem(second, fuel);
    }

    /** The unknowns of the initial stack, from a height up. */
    method InitialStack(low: int) returns (initial: map<int, Id>)
      requires Valid() && low <= 1
      modifies state.classes
      ensures Valid() && old(state.Table()) <= state.Table()
      ensures forall h :: h in initial <==> low <= h <= 0
      ensures forall h :: h in initial ==>
                initial[h] < |state.Table()| && state.Table()[initial[h]] == Expr(Undefined(h), [], 0)
    {
      hide OpsOk, StoresRecorded, NoGaps, SequencesUpTo, SequencesAscend, Trackable, Simulates, FactsOk, Recorded;
      initial := map[];
      for height := low to 1
        invariant Valid() && old(state.Table()) <= state.Table()
        invariant forall h :: h in initial <==> low <= h < height
        invariant forall h :: h in initial ==>
                  initial[h] < |state.Table()| && state.Table()[initial[h]] == Expr(Undefined(h), [], 0)
      {
        ghost var reps := state.Table();
        var found := state.classes.Find(Undefined(height), [], 0, 0);
        PlainKeepsSequences(reps, state.Table(), state.sequenceNumber);
        SimulatesMore(fed, depth, state.View(), reps, storeOperations, state.Table());
        RecordedPlain(reps, state.Table(), storeOperations);
        FactsMore(state.View(), |reps|, |state.Table()|);
        TagsFedPlain(reps, state.Table(), fed);
        initial := initial[height := found.value];
      }
    }

    /** Looks at every height from `low` up. */
    method FillStack(low: int)
      requires Valid() && low <= state.stackHeight + 1 && depth <= low
      requires forall h :: h in state.stackElements ==> low <= h
      modifies state, state.classes
      ensures Valid() && old(state.Table()) <= state.Table()
      ensures state.stackHeight == old(state.stackHeight) && forall h :: h in state.stackElements <==> low <= h <= state.stackHeight
    {
      hide OpsOk, StoresRecorded, NoGaps, SequencesUpTo, SequencesAscend, Trackable, Simulates, Recorded, LearnsDownTo;
      for height := low to state.stackHeight + 1
        invariant Valid() && old(state.Table()) <= state.Table() && state.stackHeight == old(state.stackHeight)
        invariant forall h :: h in state.stackElements ==> low <= h
        invariant forall h :: low <= h < height ==> h in state.stackElements
      {
        ghost var k, reps := state.View(), state.Table();
        var id := state.StackElement(height);
        SimulatesNote(fed, depth, height, k, reps, storeOperations, state.View(), state.Table());
        RecordedPlain(reps, state.Table(), storeOperations);
        TagsFedPlain(reps, state.Table(), fed);
      }
    }

    /** The optimised block: on every start on which the original gets somewhere, it gets to the same
        place. None stands for an exception, after which the caller keeps the original. */
    method GetOptimizedItems(fuel: nat) returns (r: Option<seq<Item>>)
      requires Valid() && depth == 1
      modifies this, state, state.classes
      ensures r.Some? ==> SameBehaviour(old(fed) + OptionItem(old(breakingItem)), r.value)
      ensures r.Some? ==> TagsStay(old(breakingItem), r.value)
      ensures r.Some? ==> NoNewTags(old(fed) + OptionItem(old(breakingItem)), r.value)
    {
      hide OpsOk, StoresRecorded, KnownState.Valid, Trackable, Simulates, SameFlow, SameBehaviour, CodeFor;
      ghost var block := fed + OptionItem(breakingItem);
      var ok := OptimizeBreakingItem(fuel);
      if !ok { return None; }
      var low := MinHeight(state.stackHeight, state.stackElements);
      StateShape();
      ghost var d, k1, reps1 := depth, state.View(), state.Table();
      MinHeightLow(k1, |reps1|);
      assert Simulates(fed, d, k1, reps1, storeOperations);
      SimulatesDeeper(fed, d, if low < d then low else d, k1, reps1, storeOperations);
      depth := if low < d then low else d;
      var initial := InitialStack(low);
      FillStack(low);
      StateShape();
      var generator := new CSECodeGenerator(state.classes, storeOperations);
      ghost var k2, reps2 := state.View(), state.Table();
      ReadyForGenerator(k2, reps2, storeOperations, initial, low);
      var code := generator.GenerateCode(1, 0, initial, state.stackElements, fuel, storeOperations, low,
          state.stackHeight);
      if code.None? { return None; }
      CodePreserves(block, fed, OptionItem(breakingItem), d, low, k1, reps1, k2, reps2, state.classes.representatives,
          storeOperations, code.value);
      r := Some(code.value + OptionItem(breakingItem));
      TagsStayHere(old(breakingItem), breakingItem, Plan(state.classes.representatives, storeOperations, low),
          code.value, state.stackHeight, state.stackElements);
      CodePushesFed(reps2, Plan(state.classes.representatives, storeOperations, low), code.value, state.stackHeight,
          state.stackElements, fed, old(fed));
      NoNewTagsConcat(old(fed), code.value, OptionItem(old(breakingItem)), OptionItem(breakingItem));
    }

    lemma {:induction false} StateShape()
      requires Valid()
      ensures FactsOk(state.View(), |state.Table()|) && NoGaps(state.stackHeight, state.stackElements)
      ensures state.classes.Valid() && OpsOk(storeOperations, state.Table())
      ensures StoresRecorded(state.Table(), storeOperations)
      ensures SequencesAscend(state.Table()) && SequencesUpTo(state.Table(), 2 * |storeOperations| + 1)
      ensures Simulates(fed, depth, state.View(), state.Table(), storeOperations)
      ensures TagsFed(state.Table(), fed) && forall i :: 0 <= i < |fed| ==> Trackable(fed[i])
    {
    }
  }

  /** A tag can only be the breaking item, and then it stays where it is. */
  predicate TagsStay(breaking: Option<Item>, items: seq<Item>) {
    if breaking.Some? && IsTag(breaking.value)
    then |items| > 0 && items[|items| - 1] == breaking.value && NoTags(items[..|items| - 1])
    else NoTags(items)
  }

  lemma {:induction false} TagsStayHere(was: Option<Item>, now: Option<Item>, p: Plan, code: seq<Item>, high: int,
      target: map<int, Id>)
    requires now == was || (NoTags(OptionItem(was)) && NoTags(OptionItem(now)))
    requires CodeFor(p, code, high, target)
    ensures TagsStay(was, code + OptionItem(now))
  {
    hide PlanOk, RunsTo, Consistent;
    if was.Some? && IsTag(was.value) {
      assert !NoTags(OptionItem(was)) by { assert IsTag(OptionItem(was)[0]); }
      assert (code + [was.value])[..|code|] == code;
    }
  }

  /** The code pushes only tags that were fed. */
  lemma {:induction false} CodePushesFed(reps: seq<Expr>, p: Plan, code: seq<Item>, high: int, target: map<int, Id>,
      fed: seq<Item>, items: seq<Item>)
    requires TagsFed(reps, fed) && AddsPlain(reps, p.reps) && CodeFor(p, code, high, target) && NoNewTags(items, fed)
    ensures NoNewTags(items, code)
  {
    hide PlanOk, RunsTo, Consistent;
    TagsFedPlain(reps, p.reps, fed);
    forall x | x in code && NamesTag(x) ensures x in items {
      var i :| 0 <= i < |code| && code[i] == x;
      assert IsClassItem(p.reps, x);
    }
  }

  /** The lowest height the block looks at. */
  function MinHeight(height: int, elements: map<int, Id>): int {
    if elements == map[] then height + 1
    else var least := Lowest(elements.Keys); if least < height + 1 then least else height + 1
  }

  lemma {:induction false} MinHeightLow(k: Facts, n: nat)
    requires FactsOk(k, n) && NoGaps(k.height, k.elements)
    ensures var low := MinHeight(k.height, k.elements);
            low <= 1 && low <= k.height + 1 && forall h :: h in k.elements ==> low <= h
  {
    EmptyOrNot(k.elements.Keys);
    if k.height >= 1 { assert 1 in k.elements; }
  }

  lemma {:induction false} SimulatesDeeper(items: seq<Item>, depth: int, less: int, k: Facts, reps: seq<Expr>,
      ops: seq<StoreOperation>)
    requires Simulates(items, depth, k, reps, ops) && less <= depth
    ensures Simulates(items, less, k, reps, ops)
  {
    hide LinkedEnv, NumericState, Explained;
  }

  lemma {:induction false} ReadyForGenerator(k: Facts, reps: seq<Expr>, ops: seq<StoreOperation>, initial: map<int,
      Id>, low: int)
    requires FactsOk(k, |reps|) && low <= 1 && low <= k.height + 1
    requires forall h :: h in initial <==> low <= h <= 0
    requires forall h :: h in initial ==> initial[h] < |reps| && reps[initial[h]] == Expr(Undefined(h), [], 0)
    requires forall h :: h in k.elements <==> low <= h <= k.height
    ensures BlockShape(reps, 0, initial, k.elements, low, k.height)
  {
  }

  /** Wherever the first piece of code gets somewhere, the second one gets to the same place. */
  ghost predicate SameBehaviour(before: seq<Item>, after: seq<Item>) {
    forall env, s | LinkedEnv(env) && NumericState(s) ::
      RunSegment(env, before, s).Stuck? || RunSegment(env, after, s) == RunSegment(env, before, s)
  }

  /** The lowest height looked at is within the stack of every run. */
  lemma {:induction false} ExplainedLow(k: Facts, reps: seq<Expr>, ops: seq<StoreOperation>, env: Env, s: State,
      m: State)
    requires Explained(k, reps, ops, env, s, m)
    ensures 1 <= |s.stack| + MinHeight(k.height, k.elements)
  {
    hide RecordedHistory, StorageMatches, MemoryMatches, WellFormed, SequencesUpTo, ContextOk, AllNums;
    var c :| Explains(c, k, reps, ops, env, s, m);
    EmptyOrNot(k.elements.Keys);
    if k.elements != map[] {
      var h := Lowest(k.elements.Keys);
      assert Holds(c.stack, m.stack, h, Values(c, reps)[k.elements[h]]);
    }
  }

  lemma {:induction false} SameStack(height: int, elements: map<int, Id>, vals: seq<Word>, start: seq<Value>,
      a: seq<Value>, b: seq<Value>)
    requires ElementsOk(elements, height, |vals|) && StackMatches(height, elements, vals, start, a)
    requires StackMatches(height, elements, vals, start, b)
    ensures a == b
  {
    forall i | 0 <= i < |a| ensures a[i] == b[i] {
      var h := i - |start| + 1;
      if h in elements {
        assert Holds(start, a, h, vals[elements[h]]) && Holds(start, b, h, vals[elements[h]]);
      } else {
        assert Untouched(start, a, h) && Untouched(start, b, h);
      }
    }
  }

  /** Both the block and the code end in the same state. */
  lemma {:induction false} CodeAgrees(c: Context, k: Facts, reps: seq<Expr>, more: seq<Expr>, ops: seq<StoreOperation>,
      low: int, code: seq<Item>, s: State, m: State)
    requires Explains(c, k, reps, ops, c.env, s, m) && reps <= more && WellFormed(more) && 1 <= |s.stack| + low
    requires CodeFor(Plan(more, ops, low), code, k.height, k.elements)
    ensures RunBlock(c.env, code, s) == Some(m)
  {
    hide ContextOk, StorageMatches, MemoryMatches, WellFormed, SequencesUpTo, RunBlock, HistoryIs, OpsOk;
    HistoryKept(c, reps, more, ops);
    HistoryLength(c, reps, ops);
    var p := Plan(more, ops, low);
    assert WritesOf(p, Values(c, more)) == WritesOf(Plan(more, ops, 0), Values(c, more)) by { SameWrites(more, ops, low, Values(c, more)); }
    assert Consistent(p, c);
    ValuesPrefix(c, reps, more);
    StackMatchesPrefix(k.height, k.elements, Values(c, reps), Values(c, more), c.stack, m.stack);
    var r := RunBlock(c.env, code, State(c.stack, c.history[0]));
    SameStack(k.height, k.elements, Values(c, more), c.stack, m.stack, r.value.stack);
  }

  lemma {:induction false} SameWrites(reps: seq<Expr>, ops: seq<StoreOperation>, low: int, vals: seq<Word>)
    requires PlanOk(Plan(reps, ops, 0)) && |vals| == |reps|
    ensures PlanOk(Plan(reps, ops, low)) && WritesOf(Plan(reps, ops, low), vals) == WritesOf(Plan(reps, ops, 0), vals)
  {
    hide WellFormed;
    forall j | 0 <= j < |ops| ensures WriteOf(Plan(reps, ops, low), vals, j) == WriteOf(Plan(reps, ops, 0), vals, j) {
      assert StoreOk(ops[j], reps);
    }
  }

  lemma {:induction false} CodeRuns(items: seq<Item>, d: int, low: int, k1: Facts, reps1: seq<Expr>, k2: Facts,
      reps2: seq<Expr>, more: seq<Expr>,
                                    ops: seq<StoreOperation>, code: seq<Item>, env: Env, s: State, m: State)
    requires Simulates(items, d, k1, reps1, ops) && low == MinHeight(k1.height, k1.elements)
    requires Simulates(items, if low < d then low else d, k2, reps2, ops) && reps2 <= more && WellFormed(more)
    requires CodeFor(Plan(more, ops, low), code, k2.height, k2.elements)
    requires LinkedEnv(env) && NumericState(s) && RunBlock(env, items, s) == Some(m) && 1 <= |s.stack| + d
    ensures RunBlock(env, code, s) == Some(m)
  {
    hide LinkedEnv, NumericState, CodeFor, WellFormed, MinHeight, RunBlock;
    assert Explained(k1, reps1, ops, env, s, m);
    ExplainedLow(k1, reps1, ops, env, s, m);
    assert Explained(k2, reps2, ops, env, s, m);
    var c :| Explains(c, k2, reps2, ops, env, s, m);
    CodeAgrees(c, k2, reps2, more, ops, low, code, s, m);
  }

  lemma {:induction false} CodePreserves(block: seq<Item>, items: seq<Item>, last: seq<Item>, d: int, low: int,
      k1: Facts, reps1: seq<Expr>, k2: Facts, reps2: seq<Expr>,
                                         more: seq<Expr>, ops: seq<StoreOperation>, code: seq<Item>)
    requires SameFlow(block, items + last, d) && |last| <= 1 && (forall i :: 0 <= i < |items| ==> Trackable(items[i]))
    requires Simulates(items, d, k1, reps1, ops) && low == MinHeight(k1.height, k1.elements)
    requires Simulates(items, if low < d then low else d, k2, reps2, ops) && reps2 <= more && WellFormed(more)
    requires CodeFor(Plan(more, ops, low), code, k2.height, k2.elements)
    ensures SameBehaviour(block, code + last)
  {
    hide LinkedEnv, NumericState, CodeFor, WellFormed, MinHeight, RunBlock, RunSegment, Simulates, Trackable;
    forall env, s | LinkedEnv(env) && NumericState(s) && !RunSegment(env, block, s).Stuck?
      ensures RunSegment(env, code + last, s) == RunSegment(env, block, s)
    {
      RunSegmentConcat(env, items, last, s);
      RunSegmentConcat(env, code, last, s);
      TrackableIsStraight(items);
      StraightLineRuns(env, items, s);
      var m := RunBlock(env, items, s).value;
      CodeRuns(items, d, low, k1, reps1, k2, reps2, more, ops, code, env, s, m);
      BlockIsSegment(env, code, s);
    }
  }

  lemma {:induction false} StackItemsTrackable()
    ensures Trackable(Operation(SWAP1)) && Trackable(Operation(POP))
  {
  }

  ghost predicate NeverZero(reps: seq<Expr>, id: Id) {
    WellFormed(reps) && id < |reps| && forall v | Sensible(v) :: Eval(v, reps, id) != 0
  }

  ghost predicate AlwaysZero(reps: seq<Expr>, id: Id) {
    WellFormed(reps) && id < |reps| && forall v :: Eval(v, reps, id) == 0
  }

  /** The two pieces of code behave alike, and they get somewhere only if the stack is deep enough. */
  ghost predicate SameFlow(before: seq<Item>, after: seq<Item>, depth: int) {
    forall env, s | LinkedEnv(env) && NumericState(s) ::
      RunSegment(env, before, s).Stuck? || (RunSegment(env, after, s) == RunSegment(env, before, s) && 1 <= |s.stack| + depth)
  }

  lemma {:induction false} SameFlowSame(items: seq<Item>)
    ensures SameFlow(items, items, 1)
  {
  }

  lemma {:induction false} RecordedPlain(reps: seq<Expr>, more: seq<Expr>, ops: seq<StoreOperation>)
    requires StoresRecorded(reps, ops) && OpsOk(ops, reps) && AddsPlain(reps, more) && WellFormed(more)
    ensures StoresRecorded(more, ops) && OpsOk(ops, more)
  {
    RecordedStill(reps, more, ops);
    OpsOkPrefix(ops, reps, more);
  }

  lemma {:induction false} ElementId(k: Facts, h: int, n: nat)
    requires FactsOk(k, n) && h in k.elements
    ensures k.elements[h] < n
  {
  }

  lemma {:induction false} FactsMore(k: Facts, n: nat, more: nat)
    requires FactsOk(k, n) && n <= more
    ensures FactsOk(k, more)
  {
  }

  function OptionItem(item: Option<Item>): seq<Item> { if item.Some? then [item.value] else [] }

  lemma {:induction false} RecordedNumber(op: Option<StoreOperation>, before: nat, after: nat, reps: seq<Expr>,
      more: seq<Expr>)
    requires RecordedAt(op, before, after, reps, more)
    ensures after == if op.Some? then before + 2 else before
    ensures op.Some? ==> op.value.sequenceNumber == before + 1
  {
  }

  // ----- breaking items -----

  /** What is known before (k0) and after (k) looking at the second stack element. */
  datatype Guard = Guard(items: seq<Item>, depth: int, k0: Facts, reps0: seq<Expr>, k: Facts, reps: seq<Expr>, ops: seq<StoreOperation>)

  ghost predicate GuardOk(g: Guard) {
    && Simulates(g.items, 1, g.k0, g.reps0, g.ops) && Simulates(g.items, g.depth, g.k, g.reps, g.ops)
    && g.k0.height == g.k.height && g.k.height - 1 in g.k.elements
    && g.depth == (if g.k.height - 1 < 1 then g.k.height - 1 else 1)
    && forall i :: 0 <= i < |g.items| ==> Trackable(g.items[i])
  }

  lemma {:induction false} TrackableIsStraight(items: seq<Item>)
    requires forall i :: 0 <= i < |items| ==> Trackable(items[i])
    ensures StraightLine(items)
  {
    forall i | 0 <= i < |items|
      ensures !(items[i].Operation? && AltersControlFlow(items[i].op))
    { assert Trackable(items[i]); }
  }

  lemma {:induction false} ExplainedHeight(k: Facts, reps: seq<Expr>, ops: seq<StoreOperation>, env: Env, s: State,
      m: State)
    requires Explained(k, reps, ops, env, s, m)
    ensures |m.stack| == |s.stack| + k.height && AllNums(m.stack)
  {
    hide Tracks, RecordedHistory;
    var c :| Explains(c, k, reps, ops, env, s, m);
    StackDepth(k, reps, c, m);
  }

  lemma {:induction false} ExplainedElement(k: Facts, reps: seq<Expr>, ops: seq<StoreOperation>, env: Env, s: State,
      m: State, h: int)
    requires Explained(k, reps, ops, env, s, m) && h in k.elements && 1 <= |s.stack| + h <= |m.stack|
    ensures m.stack[|s.stack| + h - 1].Num?
    ensures NeverZero(reps, k.elements[h]) ==> m.stack[|s.stack| + h - 1] != Num(0)
    ensures AlwaysZero(reps, k.elements[h]) ==> m.stack[|s.stack| + h - 1] == Num(0)
  {
    hide RecordedHistory, StorageMatches, MemoryMatches, WellFormed, SequencesUpTo, ContextOk, Sensible;
    var c :| Explains(c, k, reps, ops, env, s, m);
    assert Holds(c.stack, m.stack, h, Values(c, reps)[k.elements[h]]);
    ContextIsSensible(c);
  }

  /** A block that gets to its breaking item runs through. */
  lemma {:induction false} BlockRuns(items: seq<Item>, item: Item, env: Env, s: State)
    requires (forall i :: 0 <= i < |items| ==> Trackable(items[i])) && !RunSegment(env, items + [item], s).Stuck?
    ensures RunSegment(env, items, s).Next? && RunBlock(env, items, s) == Some(RunSegment(env, items, s).state)
    ensures RunSegment(env, items + [item], s) == StepItem(env, item, RunSegment(env, items, s).state)
  {
    hide StepItem, RunSegment, Trackable;
    TrackableIsStraight(items);
    StraightLineRuns(env, items, s);
    RunSegmentSnoc(env, items, item, s);
  }

  lemma {:induction false} NeedsTwo(env: Env, op: Opcode, m: State)
    requires (op == JUMPI || op == RETURN) && !StepItem(env, Operation(op), m).Stuck?
    ensures |m.stack| >= 2
  {
  }

  /** Where a breaking item with two operands gets somewhere, the second one is known. */
  /** What a class says about the second element of the stack. */
  ghost predicate SecondIs(reps: seq<Expr>, condition: Id, stack: seq<Value>) {
    && |stack| >= 2
    && (NeverZero(reps, condition) ==> stack[|stack| - 2] != Num(0))
    && (AlwaysZero(reps, condition) ==> stack[|stack| - 2] == Num(0))
  }

  lemma {:induction false} SecondKnown(g: Guard, op: Opcode, env: Env, s: State)
    requires GuardOk(g) && LinkedEnv(env) && NumericState(s) && (op == JUMPI || op == RETURN)
    requires !RunSegment(env, g.items + [Operation(op)], s).Stuck?
    ensures RunSegment(env, g.items, s).Next? && 1 <= |s.stack| + g.depth
    ensures var m := RunSegment(env, g.items, s).state;
            && AllNums(m.stack) && RunSegment(env, g.items + [Operation(op)], s) == StepItem(env, Operation(op), m)
            && SecondIs(g.reps, g.k.elements[g.k.height - 1], m.stack)
  {
    hide LinkedEnv, NumericState, NeverZero, AlwaysZero, RunSegment, StepItem, Trackable, Explained, AllNums;
    BlockRuns(g.items, Operation(op), env, s);
    var m := RunSegment(env, g.items, s).state;
    NeedsTwo(env, op, m);
    assert Explained(g.k0, g.reps0, g.ops, env, s, m);
    ExplainedHeight(g.k0, g.reps0, g.ops, env, s, m);
    assert Explained(g.k, g.reps, g.ops, env, s, m);
    ExplainedElement(g.k, g.reps, g.ops, env, s, m, g.k.height - 1);
  }

  lemma {:induction false} JumpKept(g: Guard, item: Item)
    requires GuardOk(g) && (item == Operation(JUMPI) || item == Operation(RETURN))
    ensures SameFlow(g.items + [item], g.items + [item], g.depth)
  {
    hide GuardOk, LinkedEnv, NumericState, RunSegment;
    forall env, s | LinkedEnv(env) && NumericState(s) && !RunSegment(env, g.items + [item], s).Stuck?
      ensures 1 <= |s.stack| + g.depth
    {
      SecondKnown(g, item.op, env, s);
    }
  }

  lemma {:induction false} TwoThen(env: Env, items: seq<Item>, a: Item, b: Item, last: seq<Item>, s: State)
    requires RunSegment(env, items, s).Next?
    ensures RunSegment(env, items + [a, b] + last, s) == RunSegment(env, [a, b] + last, RunSegment(env, items, s).state)
  {
    assert items + [a, b] + last == items + ([a, b] + last);
    RunSegmentConcat(env, items, [a, b] + last, s);
  }

  lemma {:induction false} JumpTaken(g: Guard, condition: Id)
    requires GuardOk(g) && condition == g.k.elements[g.k.height - 1] && NeverZero(g.reps, condition)
    ensures SameFlow(g.items + [Operation(JUMPI)], g.items + [Operation(SWAP1), Operation(POP)] + [Operation(JUMP)],
                     g.depth)
  {
    hide NeverZero, AlwaysZero, LinkedEnv, NumericState, RunSegment, StepItem, GuardOk, AllNums;
    var before, after := g.items + [Operation(JUMPI)], g.items + [Operation(SWAP1), Operation(POP)] + [Operation(JUMP)];
    forall env, s | LinkedEnv(env) && NumericState(s) && !RunSegment(env, before, s).Stuck?
      ensures RunSegment(env, after, s) == RunSegment(env, before, s) && 1 <= |s.stack| + g.depth
    {
      SecondKnown(g, JUMPI, env, s);
      TwoThen(env, g.items, Operation(SWAP1), Operation(POP), [Operation(JUMP)], s);
      SwapPopJump(env, RunSegment(env, g.items, s).state);
    }
  }

  lemma {:induction false} SwapPopJump(env: Env, m: State)
    requires |m.stack| >= 2 && m.stack[|m.stack| - 2] != Num(0)
    ensures RunSegment(env, [Operation(SWAP1), Operation(POP)] + [Operation(JUMP)], m) == StepItem(env, Operation(JUMPI), m)
  {
    var n := |m.stack|;
    var m1 := State(Swapped(m.stack, 1), m.world);
    var m2 := State(m1.stack[..n - 1], m.world);
    ThreeItems(env, Operation(SWAP1), Operation(POP), Operation(JUMP), m, m1, m2);
    assert m2.stack[..n - 2] == m.stack[..n - 2];
  }

  lemma {:induction false} ThreeItems(env: Env, a: Item, b: Item, c: Item, m: State, m1: State, m2: State)
    requires StepItem(env, a, m) == Next(m1) && StepItem(env, b, m1) == Next(m2)
    ensures RunSegment(env, [a, b] + [c], m) == StepItem(env, c, m2)
  {
    hide StepItem;
    TwoItems(env, a, b, m, m1, m2);
    RunSegmentSnoc(env, [a, b], c, m);
  }

  lemma {:induction false} TwoItems(env: Env, a: Item, b: Item, m: State, m1: State, m2: State)
    requires StepItem(env, a, m) == Next(m1) && StepItem(env, b, m1) == Next(m2)
    ensures RunSegment(env, [a, b], m) == Next(m2)
  {
    hide StepItem;
    RunSegmentSnoc(env, [], a, m);
    RunSegmentSnoc(env, [a], b, m);
    assert [] + [a] == [a] && [a] + [b] == [a, b];
  }

  lemma {:induction false} PopTwo(env: Env, m: State)
    requires |m.stack| >= 2
    ensures RunSegment(env, [Operation(POP), Operation(POP)], m) == Next(State(m.stack[..|m.stack| - 2], m.world))
  {
    var n := |m.stack|;
    var m1 := State(m.stack[..n - 1], m.world);
    var m2 := State(m.stack[..n - 2], m.world);
    assert m1.stack[..n - 2] == m2.stack;
    TwoItems(env, Operation(POP), Operation(POP), m, m1, m2);
  }

  lemma {:induction false} JumpNotTaken(g: Guard, condition: Id)
    requires GuardOk(g) && condition == g.k.elements[g.k.height - 1] && AlwaysZero(g.reps, condition)
    ensures SameFlow(g.items + [Operation(JUMPI)], g.items + [Operation(POP), Operation(POP)] + [], g.depth)
  {
    hide NeverZero, AlwaysZero, LinkedEnv, NumericState, RunSegment, ExecItem, GuardOk, AllNums;
    var before, after := g.items + [Operation(JUMPI)], g.items + [Operation(POP), Operation(POP)] + [];
    forall env, s | LinkedEnv(env) && NumericState(s) && !RunSegment(env, before, s).Stuck?
      ensures RunSegment(env, after, s) == RunSegment(env, before, s) && 1 <= |s.stack| + g.depth
    {
      SecondKnown(g, JUMPI, env, s);
      TwoThen(env, g.items, Operation(POP), Operation(POP), [], s);
      assert [Operation(POP), Operation(POP)] + [] == [Operation(POP), Operation(POP)];
      PopTwo(env, RunSegment(env, g.items, s).state);
    }
  }

  lemma {:induction false} ReturnNothing(g: Guard, size: Id)
    requires GuardOk(g) && size == g.k.elements[g.k.height - 1] && AlwaysZero(g.reps, size)
    ensures SameFlow(g.items + [Operation(RETURN)], g.items + [Operation(POP), Operation(POP)] + [Operation(STOP)],
                     g.depth)
  {
    hide NeverZero, AlwaysZero, LinkedEnv, NumericState, RunSegment, StepItem, GuardOk, AllNums;
    var before, after := g.items + [Operation(RETURN)], g.items + [Operation(POP), Operation(POP)] + [Operation(STOP)];
    forall env, s | LinkedEnv(env) && NumericState(s) && !RunSegment(env, before, s).Stuck?
      ensures RunSegment(env, after, s) == RunSegment(env, before, s) && 1 <= |s.stack| + g.depth
    {
      SecondKnown(g, RETURN, env, s);
      TwoThen(env, g.items, Operation(POP), Operation(POP), [Operation(STOP)], s);
      PopsThenStop(env, RunSegment(env, g.items, s).state);
    }
  }

  lemma {:induction false} PopsThenStop(env: Env, m: State)
    requires |m.stack| >= 2 && AllNums(m.stack) && m.stack[|m.stack| - 2] == Num(0)
    ensures RunSegment(env, [Operation(POP), Operation(POP)] + [Operation(STOP)], m) == StepItem(env, Operation(RETURN), m)
  {
    hide ViewOf, RunSegment, ExecItem;
    PopTwo(env, m);
    RunSegmentSnoc(env, [Operation(POP), Operation(POP)], Operation(STOP), m);
    assert m.stack[|m.stack| - 1].Num?;
    EmptyRange(m.world.memory, m.stack[|m.stack| - 1].word);
  }

  lemma {:induction false} EmptyRange(m: Memory, offset: Word)
    ensures MemoryRange(m, offset, 0) == Some([])
  {
  }
}
