/** The symbolic state of a block: fed with items, it keeps knowing what the machine holds. */
module KnownStates {
  import opened Words
  import opened Instructions
  import opened Items
  import opened Machine
  import opened Rules
  import opened Expressions
  import opened Classes
  import opened Knowledge
  import opened Steps
  import opened Tracking

  /** Whatever was pushed since the start is known. */
  predicate NoGaps(height: int, elements: map<int, Id>) { forall h :: 1 <= h <= height ==> h in elements }

  /** The elements after the tail of an operation: cut at the new height. */
  function Lowered(k: Facts, height: int): Facts { k.(height := height, elements := Truncate(k.elements, height)) }

  lemma {:induction false} SettledReplaced(k: Facts, n: nat, id: Id)
    ensures Lowered(Noted(k, k.height - n + 1, id), k.height - n + 1) == Replaced(k, n, id)
  {
    var h := k.height - n + 1;
    assert Truncate(k.elements[h := id], h) == Truncate(k.elements, k.height - n)[h := id];
  }

  lemma {:induction false} LearnsNothing(depth: int, k: Facts, reps: seq<Expr>)
    ensures LearnsDownTo(depth, k, reps, k, reps)
  {
  }

  lemma {:induction false} OperandsGrow(height: int, elements: map<int, Id>, args: seq<Id>, id: Id)
    requires OperandsKnown(height, elements, args)
    ensures OperandsKnown(height, elements[height - |args| := id], args + [id])
  {
    var es, more := elements[height - |args| := id], args + [id];
    forall i | 0 <= i < |more| ensures ElementIs(es, height - i, more[i]) {
      if i < |args| { assert ElementIs(elements, height - i, args[i]); }
    }
  }

  predicate IsLeast(s: set<Id>, r: Id) { r in s && forall x :: x in s ==> r <= x }

  /** The smallest element of a set of classes. */
  function Least(s: set<Id>): (r: Id)
    requires s != {}
    ensures IsLeast(s, r)
  {
    LeastExists(s);
    var r :| IsLeast(s, r);
    r
  }

  lemma {:induction false} LeastExists(s: set<Id>)
    requires s != {}
    ensures exists r :: IsLeast(s, r)
    decreases s
  {
    var y: Id :| y in s;
    var rest := s - {y};
    if rest == {} {
      assert s == {y};
      assert IsLeast(s, y);
    } else {
      LeastExists(rest);
      var z :| IsLeast(rest, z);
      var m := if y <= z then y else z;
      forall x | x in s ensures m <= x { if x != y { assert x in rest; } }
      assert IsLeast(s, m);
    }
  }

  class KnownState {
    var stackHeight: int
    var stackElements: map<int, Id>
    var sequenceNumber: nat
    var storageContent: map<Id, Id>
    var memoryContent: map<Id, Id>
    const classes: ExpressionClasses

    function View(): Facts
      reads this
    {
      Facts(stackHeight, stackElements, sequenceNumber, storageContent, memoryContent)
    }

    ghost function Table(): seq<Expr>
      reads this, classes
    {
      classes.representatives
    }

    ghost predicate Valid()
      reads this, classes
    {
      && classes.Valid() && FactsOk(View(), |Table()|) && NoGaps(stackHeight, stackElements)
      && SequencesUpTo(Table(), sequenceNumber) && SequencesAscend(Table())
    }

    constructor (table: ExpressionClasses)
      requires table.Valid() && table.representatives == []
      ensures Valid() && classes == table && View() == Facts(0, map[], 1, map[], map[])
    {
      classes := table;
      stackHeight, stackElements, sequenceNumber := 0, map[], 1;
      storageContent, memoryContent := map[], map[];
    }

    /** The class at a stack height; a height not looked at before gets a new unknown. */
    method StackElement(height: int) returns (id: Id)
      requires Valid() && height <= stackHeight
      modifies this`stackElements, classes
      ensures Valid() && AddsPlain(old(Table()), Table()) && NoNewStores(old(Table()), Table())
      ensures height in stackElements && stackElements[height] == id
      ensures stackElements == old(stackElements)[height := id]
      ensures height in old(stackElements) ==> id == old(stackElements)[height] && Table() == old(Table())
      ensures height !in old(stackElements) ==> Table()[id] == Expr(Undefined(height), [], 0)
      ensures LearnsDownTo(height, old(View()), old(Table()), View(), Table())
    {
      ghost var k, reps := View(), Table();
      if height in stackElements {
        id := stackElements[height];
        LearnsNothing(height, k, reps);
        assert stackElements[height := id] == stackElements;
      } else {
        var found := classes.Find(Undefined(height), [], 0, 0);
        id := found.value;
        PlainKeepsSequences(reps, Table(), sequenceNumber);
        NoteSound(k, reps, Table(), height, id);
        stackElements := stackElements[height := id];
      }
    }

    /** The classes of the n topmost elements, top first. */
    method FetchArguments(n: nat) returns (args: seq<Id>)
      requires Valid()
      modifies this`stackElements, classes
      ensures Valid() && AddsPlain(old(Table()), Table()) && NoNewStores(old(Table()), Table())
      ensures |args| == n && OperandsKnown(stackHeight, stackElements, args)
      ensures LearnsDownTo(stackHeight - n + 1, old(View()), old(Table()), View(), Table())
    {
      hide LearnsDownTo, FactsOk, SequencesUpTo, SequencesAscend;
      args := [];
      LearnsNothing(stackHeight + 1, View(), Table());
      while |args| < n
        invariant Valid() && AddsPlain(old(Table()), Table()) && NoNewStores(old(Table()), Table()) && |args| <= n
        invariant OperandsKnown(stackHeight, stackElements, args)
        invariant LearnsDownTo(stackHeight - |args| + 1, old(View()), old(Table()), View(), Table())
      {
        ghost var k, reps, depth := View(), Table(), stackHeight - |args|;
        var id := StackElement(stackHeight - |args|);
        OperandsGrow(stackHeight, k.elements, args, id);
        LearnTwice(depth, old(View()), old(Table()), depth + 1, k, reps, depth, View(), Table());
        args := args + [id];
      }
    }

    /** What a store to a slot leaves of the storage facts. */
    method SurvivingStorage(slot: Id, value: Id, fuel: nat) returns (ok: bool, kept: map<Id, Id>)
      requires Valid() && slot < |Table()|
      modifies classes
      ensures Valid() && AddsPlain(old(Table()), Table()) && NoNewStores(old(Table()), Table())
      ensures ok ==> StorageSurvives(storageContent, kept, slot, value, Table())
    {
      hide Different, SequencesUpTo, SequencesAscend, StorageSurvives;
      kept := map[];
      NothingSurvives(storageContent, slot, value, Table());
      var left := storageContent.Keys;
      while left != {}
        invariant Valid() && AddsPlain(old(Table()), Table()) && NoNewStores(old(Table()), Table())
        invariant left <= storageContent.Keys
        invariant StorageSurvives(storageContent, kept, slot, value, Table())
        decreases left
      {
        ghost var reps := Table();
        var s := Least(left);
        var different := classes.KnownToBeDifferent(s, slot, fuel);
        PlainKeepsSequences(reps, Table(), sequenceNumber);
        if different.None? { return false, map[]; }
        SurvivesPrefix(storageContent, kept, slot, value, reps, Table());
        SurvivesToo(storageContent, kept, slot, value, Table(), s);
        if different.value || storageContent[s] == value { kept := kept[s := storageContent[s]]; }
        left := left - {s};
      }
      ok := true;
    }

    /** What a store to an address leaves of the memory facts. */
    method SurvivingMemory(slot: Id, fuel: nat) returns (ok: bool, kept: map<Id, Id>)
      requires Valid() && slot < |Table()|
      modifies classes
      ensures Valid() && AddsPlain(old(Table()), Table()) && NoNewStores(old(Table()), Table())
      ensures ok ==> MemorySurvives(memoryContent, kept, slot, Table())
    {
      hide DifferentBy32, SequencesUpTo, SequencesAscend, MemorySurvives;
      kept := map[];
      NothingSurvives(memoryContent, slot, 0, Table());
      var left := memoryContent.Keys;
      while left != {}
        invariant Valid() && AddsPlain(old(Table()), Table()) && NoNewStores(old(Table()), Table())
        invariant left <= memoryContent.Keys
        invariant MemorySurvives(memoryContent, kept, slot, Table())
        decreases left
      {
        ghost var reps := Table();
        var s := Least(left);
        var different := classes.KnownToBeDifferentBy32(s, slot, fuel);
        PlainKeepsSequences(reps, Table(), sequenceNumber);
        if different.None? { return false, map[]; }
        SurvivesPrefix(memoryContent, kept, slot, 0, reps, Table());
        SurvivesToo(memoryContent, kept, slot, 0, Table(), s);
        if different.value { kept := kept[s := memoryContent[s]]; }
        left := left - {s};
      }
      ok := true;
    }

    /** The common end of every operation: elements above the new height are dropped. */
    method Settle(height: int)
      modifies this`stackElements, this`stackHeight
      ensures View() == Lowered(old(View()), height)
    {
      stackElements := Truncate(stackElements, height);
      stackHeight := height;
    }

    /** A pushed value. */
    method FeedPush(item: Item)
      requires Valid() && item.Data? && item.kind != Tag
      modifies this, classes
      ensures Valid() && old(Table()) <= Table() && NoNewStores(old(Table()), Table())
      ensures sequenceNumber == old(sequenceNumber)
      ensures StepSound(old(View()), old(Table()), item, View(), Table(), None)
      ensures AddsNoTagBut(item, old(Table()), Table())
    {
      hide SequencesUpTo, SequencesAscend, StepSound;
      ghost var k, reps := View(), Table();
      var found := classes.Find(item, [], 0, 0);
      PlainKeepsSequences(reps, Table(), sequenceNumber);
      PushSound(k, reps, Table(), item, found.value);
      stackHeight := stackHeight + 1;
      stackElements := stackElements[stackHeight := found.value];
    }

    method FeedDup(op: Opcode)
      requires Valid() && IsDup(op)
      modifies this, classes
      ensures Valid() && old(Table()) <= Table() && NoNewStores(old(Table()), Table())
      ensures sequenceNumber == old(sequenceNumber)
      ensures StepSound(old(View()), old(Table()), Operation(op), View(), Table(), None)
      ensures AddsNoTagBut(Operation(op), old(Table()), Table())
    {
      hide SequencesUpTo, SequencesAscend, StepSound, LearnsDownTo;
      ghost var k0, reps0 := View(), Table();
      var id := StackElement(stackHeight - (op - DUP1));
      DupSound(k0, reps0, op, View(), Table());
      stackElements := stackElements[stackHeight + 1 := id];
      stackHeight := stackHeight + 1;
    }

    method FeedSwap(op: Opcode)
      requires Valid() && IsSwap(op)
      modifies this, classes
      ensures Valid() && old(Table()) <= Table() && NoNewStores(old(Table()), Table())
      ensures sequenceNumber == old(sequenceNumber)
      ensures StepSound(old(View()), old(Table()), Operation(op), View(), Table(), None)
      ensures AddsNoTagBut(Operation(op), old(Table()), Table())
    {
      hide SequencesUpTo, SequencesAscend, StepSound, LearnsDownTo;
      ghost var k0, reps0 := View(), Table();
      var low := stackHeight - (op - SWAP1 + 1);
      var a := StackElement(stackHeight);
      ghost var k1, reps1 := View(), Table();
      var b := StackElement(low);
      LearnTwice(low, k0, reps0, stackHeight, k1, reps1, low, View(), Table());
      SwapSound(k0, reps0, op, View(), Table());
      stackElements := stackElements[stackHeight := b][low := a];
    }

    /** An operation without sequence number. */
    method FeedPlain(op: Opcode, fuel: nat) returns (ok: bool)
      requires Valid() && Trackable(Operation(op)) && !IsDup(op) && !IsSwap(op) && op != POP && !IsSequenced(op)
      modifies this, classes
      ensures ok ==> Valid() && old(Table()) <= Table() && NoNewStores(old(Table()), Table())
      ensures ok ==> sequenceNumber == old(sequenceNumber)
      ensures ok ==> StepSound(old(View()), old(Table()), Operation(op), View(), Table(), None)
      ensures ok ==> AddsNoTagBut(Operation(op), old(Table()), Table())
    {
      hide SequencesUpTo, SequencesAscend, StepSound, LearnsDownTo, OperandsKnown, InfoOf, Trackable, IsPure;
      hide IsSequenced, Denotes, Truncate, FactsOk, NoGaps;
      ghost var k0, reps0 := View(), Table();
      var args := FetchArguments(InfoOf(op).args);
      ghost var k, reps := View(), Table();
      if InfoOf(op).ret == 1 {
        PlainIsPure(op);
        KnownOperands(k, args, |reps|);
        var id := classes.Find(Operation(op), args, 0, fuel);
        if id.None? { return false; }
        PlainKeepsSequences(reps, Table(), sequenceNumber);
        PlainSound(k0, reps0, op, args, k, reps, Table(), id.value);
        stackElements := stackElements[stackHeight - |args| + 1 := id.value];
        SettledReplaced(k, |args|, id.value);
        ReplacedOk(k, |args|, id.value, |reps|, |Table()|);
      } else {
        PlainIsPure(op);
        StuckSound(k0, reps0, op, Lowered(View(), stackHeight + Deposit(Operation(op))), Table());
        SettledOk(k, stackHeight + Deposit(Operation(op)), |reps|);
      }
      Settle(stackHeight + Deposit(Operation(op)));
      ok := true;
    }

    method FeedSload()
      requires Valid()
      modifies this, classes
      ensures Valid() && old(Table()) <= Table() && NoNewStores(old(Table()), Table())
      ensures sequenceNumber == old(sequenceNumber)
      ensures StepSound(old(View()), old(Table()), Operation(SLOAD), View(), Table(), None)
      ensures AddsNoTagBut(Operation(SLOAD), old(Table()), Table())
    {
      hide SequencesUpTo, SequencesAscend, StepSound, LearnsDownTo, OperandsKnown, Denotes, Truncate, NoGaps, FactsOk;
      hide ExprOk, AddsNoTagBut;
      ghost var k0, reps0 := View(), Table();
      var args := FetchArguments(1);
      var slot := args[0];
      assert args == [slot];
      ghost var k, reps := View(), Table();
      KnownOperands(k, args, |reps|);
      var id: Id;
      if slot in storageContent {
        id := storageContent[slot];
        KnownIds(k, slot, |reps|);
        SloadKnownSound(k0, reps0, slot, k, reps);
      } else {
        LoadShape(k, SLOAD, slot, |reps|);
        var found := classes.Find(Operation(SLOAD), [slot], sequenceNumber, 0);
        id := found.value;
        SequencedAdded(reps, Expr(Operation(SLOAD), [slot], sequenceNumber), Table());
        SloadSound(k0, reps0, slot, k, reps, Table(), id);
        storageContent := storageContent[slot := id];
        LoadedOk(k, slot, id, |reps|, |Table()|);
      }
      OneMoreClass(Operation(SLOAD), reps0, reps, Table(), Expr(Operation(SLOAD), [slot], sequenceNumber));
      ReplacedOk(View(), 1, id, |Table()|, |Table()|);
      SettledReplaced(View(), 1, id);
      stackElements := stackElements[stackHeight := id];
      Settle(stackHeight);
    }

    method FeedMload()
      requires Valid()
      modifies this, classes
      ensures Valid() && old(Table()) <= Table() && NoNewStores(old(Table()), Table())
      ensures sequenceNumber == old(sequenceNumber)
      ensures StepSound(old(View()), old(Table()), Operation(MLOAD), View(), Table(), None)
      ensures AddsNoTagBut(Operation(MLOAD), old(Table()), Table())
    {
      hide SequencesUpTo, SequencesAscend, StepSound, LearnsDownTo, OperandsKnown, Denotes, Truncate, NoGaps, FactsOk;
      hide ExprOk, AddsNoTagBut;
      ghost var k0, reps0 := View(), Table();
      var args := FetchArguments(1);
      var slot := args[0];
      assert args == [slot];
      ghost var k, reps := View(), Table();
      KnownOperands(k, args, |reps|);
      var id: Id;
      if slot in memoryContent {
        id := memoryContent[slot];
        KnownIds(k, slot, |reps|);
        MloadKnownSound(k0, reps0, slot, k, reps);
      } else {
        LoadShape(k, MLOAD, slot, |reps|);
        var found := classes.Find(Operation(MLOAD), [slot], sequenceNumber, 0);
        id := found.value;
        SequencedAdded(reps, Expr(Operation(MLOAD), [slot], sequenceNumber), Table());
        MloadSound(k0, reps0, slot, k, reps, Table(), id);
        memoryContent := memoryContent[slot := id];
        LoadedOk(k, slot, id, |reps|, |Table()|);
      }
      OneMoreClass(Operation(MLOAD), reps0, reps, Table(), Expr(Operation(MLOAD), [slot], sequenceNumber));
      ReplacedOk(View(), 1, id, |Table()|, |Table()|);
      SettledReplaced(View(), 1, id);
      stackElements := stackElements[stackHeight := id];
      Settle(stackHeight);
    }

    /** A store to storage; it is not executed if the value is known to be there. `k0` and `reps0`
        are what was known before the operands were looked up. */
    method StoreInStorage(slot: Id, value: Id, fuel: nat, ghost k0: Facts, ghost reps0: seq<Expr>) returns (ok: bool,
        op: Option<StoreOperation>)
      requires Valid() && slot < |Table()| && value < |Table()|
      requires stackHeight == k0.height && LearnsDownTo(stackHeight - 1, k0, reps0, View(), Table())
      requires OperandsKnown(stackHeight, stackElements, [slot, value])
      modifies this`sequenceNumber, this`storageContent, classes
      ensures ok ==> Valid() && old(Table()) <= Table()
      ensures ok ==> StepSound(k0, reps0, Operation(SSTORE), Lowered(View(), stackHeight - 2), Table(), op)
      ensures ok ==> RecordedAt(op, old(sequenceNumber), sequenceNumber, old(Table()), Table())
      ensures ok ==> AddsNoTagBut(Operation(SSTORE), old(Table()), Table())
    {
      hide SequencesUpTo, SequencesAscend, StepSound, LearnsDownTo, OperandsKnown, Denotes, Truncate, NoGaps;
      hide StorageSurvives, FactsOk, ExprOk, ClassMapOk, RecordedAt, NoNewStores;
      ghost var k, reps := View(), Table();
      if slot in storageContent && storageContent[slot] == value {
        SstoreKnownSound(k0, reps0, k, reps, slot, value);
        NothingRecorded(sequenceNumber, reps);
        return true, None;
      }
      var done, kept := SurvivingStorage(slot, value, fuel);
      if !done { return false, None; }
      ghost var mid := Table();
      StoreShape(SSTORE, slot, value, sequenceNumber + 1, |mid|);
      var found := classes.Find(Operation(SSTORE), [slot, value], sequenceNumber + 1, fuel);
      var store := StoreOperation(InStorage, slot, sequenceNumber + 1, found.value);
      StoreAdded(mid, Expr(Operation(SSTORE), [slot, value], sequenceNumber + 1), Table(), sequenceNumber);
      RecordedNew(store, Expr(Operation(SSTORE), [slot, value], sequenceNumber + 1), reps, mid, Table(),
          sequenceNumber);
      SstoreSound(k0, reps0, k, reps, mid, Table(), kept, slot, value, store);
      SurvivorsOk(k, kept, slot, value, mid, |Table()|);
      storageContent := kept[slot := value];
      sequenceNumber := sequenceNumber + 2;
      return true, Some(store);
    }

    /** A store to memory; it is not executed if the value is known to be there. `k0` and `reps0`
        are what was known before the operands were looked up. */
    method StoreInMemory(slot: Id, value: Id, fuel: nat, ghost k0: Facts, ghost reps0: seq<Expr>) returns (ok: bool,
        op: Option<StoreOperation>)
      requires Valid() && slot < |Table()| && value < |Table()|
      requires stackHeight == k0.height && LearnsDownTo(stackHeight - 1, k0, reps0, View(), Table())
      requires OperandsKnown(stackHeight, stackElements, [slot, value])
      modifies this`sequenceNumber, this`memoryContent, classes
      ensures ok ==> Valid() && old(Table()) <= Table()
      ensures ok ==> StepSound(k0, reps0, Operation(MSTORE), Lowered(View(), stackHeight - 2), Table(), op)
      ensures ok ==> RecordedAt(op, old(sequenceNumber), sequenceNumber, old(Table()), Table())
      ensures ok ==> AddsNoTagBut(Operation(MSTORE), old(Table()), Table())
    {
      hide SequencesUpTo, SequencesAscend, StepSound, LearnsDownTo, OperandsKnown, Denotes, Truncate, NoGaps;
      hide MemorySurvives, FactsOk, ExprOk, ClassMapOk, RecordedAt, NoNewStores;
      ghost var k, reps := View(), Table();
      if slot in memoryContent && memoryContent[slot] == value {
        MstoreKnownSound(k0, reps0, k, reps, slot, value);
        NothingRecorded(sequenceNumber, reps);
        return true, None;
      }
      var done, kept := SurvivingMemory(slot, fuel);
      if !done { return false, None; }
      ghost var mid := Table();
      StoreShape(MSTORE, slot, value, sequenceNumber + 1, |mid|);
      var found := classes.Find(Operation(MSTORE), [slot, value], sequenceNumber + 1, fuel);
      var store := StoreOperation(InMemory, slot, sequenceNumber + 1, found.value);
      StoreAdded(mid, Expr(Operation(MSTORE), [slot, value], sequenceNumber + 1), Table(), sequenceNumber);
      RecordedNew(store, Expr(Operation(MSTORE), [slot, value], sequenceNumber + 1), reps, mid, Table(),
          sequenceNumber);
      MstoreSound(k0, reps0, k, reps, mid, Table(), kept, slot, value, store);
      SurvivorsOk(k, kept, slot, value, mid, |Table()|);
      memoryContent := kept[slot := value];
      sequenceNumber := sequenceNumber + 2;
      return true, Some(store);
    }

    method FeedStore(target: Target, fuel: nat) returns (ok: bool, op: Option<StoreOperation>)
      requires Valid()
      modifies this, classes
      ensures ok ==> Valid() && old(Table()) <= Table()
      ensures ok ==> StepSound(old(View()), old(Table()), Operation(StoreOpcode(target)), View(), Table(), op)
      ensures ok ==> RecordedAt(op, old(sequenceNumber), sequenceNumber, old(Table()), Table())
      ensures ok ==> AddsNoTagBut(Operation(StoreOpcode(target)), old(Table()), Table())
    {
      hide SequencesUpTo, SequencesAscend, StepSound, LearnsDownTo, OperandsKnown, Truncate, NoGaps, FactsOk;
      hide RecordedAt;
      ghost var k0, reps0 := View(), Table();
      var args := FetchArguments(2);
      KnownOperands(View(), args, |Table()|);
      assert args == [args[0], args[1]];
      ghost var reps := Table();
      if target == InStorage {
        ok, op := StoreInStorage(args[0], args[1], fuel, k0, reps0);
      } else {
        ok, op := StoreInMemory(args[0], args[1], fuel, k0, reps0);
      }
      if ok {
        RecordedLonger(op, old(sequenceNumber), sequenceNumber, reps0, reps, Table());
        SettledOk(View(), stackHeight - 2, |Table()|);
        Settle(stackHeight - 2);
      }
    }

    /** Feeds one item of a block. Whatever was known stays known, for every run of the block;
        a store that has to be executed is returned. The only failure is lack of fuel. */
    method FeedItem(item: Item, fuel: nat) returns (ok: bool, op: Option<StoreOperation>)
      requires Valid() && Trackable(item)
      modifies this, classes
      ensures ok ==> Valid() && old(Table()) <= Table()
      ensures ok ==> StepSound(old(View()), old(Table()), item, View(), Table(), op)
      ensures ok ==> RecordedAt(op, old(sequenceNumber), sequenceNumber, old(Table()), Table())
      ensures ok ==> AddsNoTagBut(item, old(Table()), Table())
    {
      hide SequencesUpTo, SequencesAscend, StepSound, FactsOk, NoGaps, Truncate, StoreOk;
      ok, op := true, None;
      if item.Data? {
        FeedPush(item);
      } else if IsDup(item.op) {
        FeedDup(item.op);
      } else if IsSwap(item.op) {
        FeedSwap(item.op);
      } else if item.op == POP {
        PopSound(View(), Table());
        SettledOk(View(), stackHeight - 1, |Table()|);
        Settle(stackHeight - 1);
      } else if item.op == SSTORE {
        ok, op := FeedStore(InStorage, fuel);
      } else if item.op == SLOAD {
        FeedSload();
      } else if item.op == MSTORE {
        ok, op := FeedStore(InMemory, fuel);
      } else if item.op == MLOAD {
        FeedMload();
      } else {
        ok := FeedPlain(item.op, fuel);
      }
    }
  }

  lemma {:induction false} LoadShape(k: Facts, op: Opcode, slot: Id, n: nat)
    requires FactsOk(k, n) && slot < n && (op == SLOAD || op == MLOAD)
    ensures ExprOk(Expr(Operation(op), [slot], k.sequence), n) && k.sequence % 2 == 1
  {
  }

  lemma {:induction false} StoreShape(op: Opcode, slot: Id, value: Id, sequence: nat, n: nat)
    requires slot < n && value < n && (op == SSTORE || op == MSTORE) && sequence != 0
    ensures ExprOk(Expr(Operation(op), [slot, value], sequence), n)
  {
  }

  lemma {:induction false} KnownIds(k: Facts, slot: Id, n: nat)
    requires FactsOk(k, n)
    ensures slot in k.storage ==> k.storage[slot] < n
    ensures slot in k.memory ==> k.memory[slot] < n
  {
  }

  lemma {:induction false} LoadedOk(k: Facts, slot: Id, id: Id, n: nat, more: nat)
    requires FactsOk(k, n) && slot < n <= more && id < more
    ensures FactsOk(k.(storage := k.storage[slot := id]), more) && FactsOk(k.(memory := k.memory[slot := id]), more)
  {
  }

  /** A recorded store takes the next even sequence number; no store goes unrecorded. */
  predicate RecordedAt(op: Option<StoreOperation>, before: nat, after: nat, reps: seq<Expr>, more: seq<Expr>) {
    if op.None? then after == before && NoNewStores(reps, more)
    else
      && after == before + 2 && op.value.sequenceNumber == before + 1 && StoreOk(op.value, more)
      && forall i :: |reps| <= i < |more| && IsStore(more[i]) ==> i == op.value.expression
  }

  lemma {:induction false} RecordedLonger(op: Option<StoreOperation>, before: nat, after: nat, reps0: seq<Expr>,
      reps: seq<Expr>, more: seq<Expr>)
    requires reps0 <= reps <= more && NoNewStores(reps0, reps) && RecordedAt(op, before, after, reps, more)
    ensures RecordedAt(op, before, after, reps0, more)
  {
    hide StoreOk;
  }

  lemma {:induction false} NothingRecorded(n: nat, reps: seq<Expr>)
    ensures RecordedAt(None, n, n, reps, reps)
  {
  }

  lemma {:induction false} RecordedNew(store: StoreOperation, e: Expr, reps: seq<Expr>, mid: seq<Expr>,
      more: seq<Expr>, n: nat)
    requires reps <= mid <= more <= mid + [e] && NoNewStores(reps, mid) && SequencesUpTo(mid, n)
    requires e.sequenceNumber == n + 1
    requires store.expression < |more| && more[store.expression] == e && StoreOk(store, more)
    requires store.sequenceNumber == n + 1
    ensures RecordedAt(Some(store), n, n + 2, reps, more)
  {
    hide StoreOk;
    assert store.expression == |mid|;
  }

  lemma {:induction false} StoreAdded(reps: seq<Expr>, e: Expr, more: seq<Expr>, n: nat)
    requires SequencesAscend(reps) && SequencesUpTo(reps, n) && e.sequenceNumber == n + 1 && !IsLoad(e)
    requires reps <= more <= reps + [e]
    ensures SequencesAscend(more) && SequencesUpTo(more, n + 2)
  {
    assert SequencesUpTo(reps, n + 1);
    SequencedAdded(reps, e, more);
  }

  lemma {:induction false} SurvivorsOk(k: Facts, kept: map<Id, Id>, slot: Id, value: Id, reps: seq<Expr>, more: nat)
    requires FactsOk(k, |reps|) && slot < |reps| <= more && value < |reps| && WellFormed(reps)
    ensures StorageSurvives(k.storage, kept, slot, value, reps) ==>
              FactsOk(k.(storage := kept[slot := value], sequence := k.sequence + 2), more)
    ensures MemorySurvives(k.memory, kept, slot, reps) ==>
              FactsOk(k.(memory := kept[slot := value], sequence := k.sequence + 2), more)
  {
    hide Different, DifferentBy32, WellFormed;
  }

  /** In a block, an operation other than a load or a store has at most one result, and it has
      one exactly when it is a pure operation. */
  lemma {:induction false} PlainIsPure(op: Opcode)
    requires Trackable(Operation(op)) && !IsDup(op) && !IsSwap(op) && op != POP && !IsSequenced(op)
    ensures InfoOf(op).ret == 1 <==> IsPure(op)
    ensures InfoOf(op).ret != 1 ==> InfoOf(op).ret == 0
  {
  }

  lemma {:induction false} SettledOk(k: Facts, h: int, n: nat)
    requires FactsOk(k, n) && NoGaps(k.height, k.elements) && h <= k.height
    ensures FactsOk(Lowered(k, h), n) && NoGaps(h, Lowered(k, h).elements)
  {
  }

  lemma {:induction false} ReplacedOk(k: Facts, n: nat, id: Id, size: nat, more: nat)
    requires FactsOk(k, size) && NoGaps(k.height, k.elements) && size <= more && id < more
    ensures FactsOk(Replaced(k, n, id), more) && NoGaps(k.height - n + 1, Replaced(k, n, id).elements)
  {
  }

  lemma {:induction false} KnownOperands(k: Facts, args: seq<Id>, n: nat)
    requires OperandsKnown(k.height, k.elements, args) && FactsOk(k, n)
    ensures AllBelow(args, n)
  {
    forall i | 0 <= i < |args| ensures args[i] < n { assert ElementIs(k.elements, k.height - i, args[i]); }
  }
}
