/** Which classes have to be computed, and why every load then finds the value it needs. */
module Dependencies {
  import opened Words
  import opened Instructions
  import opened Items
  import opened Machine
  import opened Rules
  import opened Expressions
  import opened Classes
  import opened Knowledge
  import opened Steps
  import opened Tracking
  import opened Replays
  import opened Layouts

  // ----- stores to one slot -----

  predicate SameGroup(op: StoreOperation, t: Target, s: Id) { op.target == t && op.slot == s }

  /** The stores to one slot, oldest first. */
  function Group(ops: seq<StoreOperation>, t: Target, s: Id): seq<StoreOperation>
    decreases |ops|
  {
    if |ops| == 0 then []
    else
      var last := ops[|ops| - 1];
      Group(ops[..|ops| - 1], t, s) + (if SameGroup(last, t, s) then [last] else [])
  }

  /** The last element of a group is the last store to the slot. */
  lemma {:induction false} GroupLast(ops: seq<StoreOperation>, t: Target, s: Id) returns (l: nat)
    requires exists j :: 0 <= j < |ops| && SameGroup(ops[j], t, s)
    ensures l < |ops| && SameGroup(ops[l], t, s) && forall i :: l < i < |ops| ==> !SameGroup(ops[i], t, s)
    ensures Group(ops, t, s) != [] && Group(ops, t, s)[|Group(ops, t, s)| - 1] == ops[l]
    decreases |ops|
  {
    l := |ops| - 1;
    if !SameGroup(ops[l], t, s) {
      var j :| 0 <= j < |ops| && SameGroup(ops[j], t, s);
      assert SameGroup(ops[..|ops| - 1][j], t, s);
      l := GroupLast(ops[..|ops| - 1], t, s);
    }
  }

  predicate Numbered(ops: seq<StoreOperation>) {
    forall j :: 0 <= j < |ops| ==> ops[j].sequenceNumber == 2 * j + 2
  }

  /** The stores before number q come first in their group, and they are those with small sequence numbers. */
  lemma {:induction false} GroupPrefix(ops: seq<StoreOperation>, q: nat, t: Target, s: Id)
    requires Numbered(ops) && q <= |ops|
    ensures Group(ops[..q], t, s) <= Group(ops, t, s)
    ensures forall i :: 0 <= i < |Group(ops[..q], t, s)| ==> Group(ops, t, s)[i].sequenceNumber <= 2 * q
    ensures forall i :: |Group(ops[..q], t, s)| <= i < |Group(ops, t, s)| ==> Group(ops, t, s)[i].sequenceNumber > 2 * q
    decreases |ops|
  {
    if q == |ops| {
      assert ops[..q] == ops;
      GroupNumbers(ops, t, s);
    } else {
      var n := |ops| - 1;
      GroupPrefix(ops[..n], q, t, s);
      assert ops[..n][..q] == ops[..q];
    }
  }

  lemma {:induction false} GroupNumbers(ops: seq<StoreOperation>, t: Target, s: Id)
    requires Numbered(ops)
    ensures forall i :: 0 <= i < |Group(ops, t, s)| ==> Group(ops, t, s)[i].sequenceNumber <= 2 * |ops|
    ensures forall i :: 0 <= i < |Group(ops, t, s)| ==> Group(ops, t, s)[i] in ops
    decreases |ops|
  {
    if |ops| > 0 {
      var n := |ops| - 1;
      GroupNumbers(ops[..n], t, s);
      forall i | 0 <= i < |Group(ops, t, s)|
        ensures Group(ops, t, s)[i].sequenceNumber <= 2 * |ops| && Group(ops, t, s)[i] in ops
      {
        if i < |Group(ops[..n], t, s)| { assert Group(ops[..n], t, s)[i] in ops[..n]; }
      }
    }
  }

  lemma {:induction false} GroupHas(ops: seq<StoreOperation>, j: nat)
    requires j < |ops|
    ensures Group(ops, ops[j].target, ops[j].slot) != []
  {
    var l := GroupLast(ops, ops[j].target, ops[j].slot);
  }

  // ----- resolved classes -----

  function LoadTarget(e: Expr): Target { if e.item == Operation(SLOAD) then InStorage else InMemory }

  /** Two slots that no store and load can share. */
  ghost predicate Independent(reps: seq<Expr>, t: Target, a: Id, b: Id) {
    && WellFormed(reps) && a < |reps| && b < |reps|
    && if t == InStorage then Different(reps, a, b) else DifferentBy32(reps, a, b)
  }

  /** A load cannot be affected by the stores to a slot, or it waits for the latest of those before it. */
  ghost predicate SlotSettled(reps: seq<Expr>, ops: seq<StoreOperation>, needed: set<(Id, Id)>, id: Id, s: Id)
    requires id < |reps| && IsLoad(reps[id]) && |reps[id].arguments| > 0
  {
    var t, q := LoadTarget(reps[id]), reps[id].sequenceNumber / 2;
    q <= |ops| && (
    || Group(ops[..q], t, s) == []
    || Independent(reps, t, s, reps[id].arguments[0])
    || (Group(ops[..q], t, s)[|Group(ops[..q], t, s)| - 1].expression, id) in needed)
  }

  ghost predicate LoadResolved(reps: seq<Expr>, ops: seq<StoreOperation>, needed: set<(Id, Id)>, id: Id)
    requires id < |reps| && IsLoad(reps[id]) && |reps[id].arguments| > 0
  {
    forall j :: 0 <= j < |ops| && ops[j].target == LoadTarget(reps[id]) ==> SlotSettled(reps, ops, needed, id, ops[j].slot)
  }

  predicate ArgumentsNeeded(args: seq<Id>, id: Id, needed: set<(Id, Id)>) {
    forall i :: 0 <= i < |args| ==> (args[i], id) in needed
  }

  /** Everything a class depends on is recorded. */
  ghost predicate Resolved(reps: seq<Expr>, ops: seq<StoreOperation>, present: set<Id>, needed: set<(Id, Id)>, id: Id) {
    && id < |reps|
    && (id in present ||
        (&& ArgumentsNeeded(reps[id].arguments, id, needed)
         && (IsLoad(reps[id]) ==> |reps[id].arguments| > 0 && LoadResolved(reps, ops, needed, id))))
  }

  /** Whatever is needed is resolved, and so is whatever needs it, unless it is still being worked on. */
  ghost predicate Closed(reps: seq<Expr>, ops: seq<StoreOperation>, present: set<Id>, needed: set<(Id, Id)>,
      open: set<Id>) {
    forall d :: d in needed ==>
      Resolved(reps, ops, present, needed, d.0) && (d.1 in open || Resolved(reps, ops, present, needed, d.1)) && d.1 < |reps|
  }

  lemma {:induction false} IndependentPrefix(reps: seq<Expr>, more: seq<Expr>, t: Target, a: Id, b: Id)
    requires WellFormed(more) && reps <= more && Independent(reps, t, a, b)
    ensures Independent(more, t, a, b)
  {
    hide WellFormed, Different, DifferentBy32;
    DifferentPrefix(reps, more, a, b);
  }

  lemma {:induction false} ResolvedGrows(reps: seq<Expr>, more: seq<Expr>, ops: seq<StoreOperation>, present: set<Id>,
      needed: set<(Id, Id)>, needed': set<(Id, Id)>, id: Id)
    requires WellFormed(more) && reps <= more && needed <= needed' && Resolved(reps, ops, present, needed, id)
    ensures Resolved(more, ops, present, needed', id)
  {
    hide WellFormed, Independent, Group;
    if id !in present && IsLoad(reps[id]) {
      forall j | 0 <= j < |ops| && ops[j].target == LoadTarget(more[id])
        ensures SlotSettled(more, ops, needed', id, ops[j].slot)
      {
        assert SlotSettled(reps, ops, needed, id, ops[j].slot);
        var t := LoadTarget(reps[id]);
        if Independent(reps, t, ops[j].slot, reps[id].arguments[0]) {
          IndependentPrefix(reps, more, t, ops[j].slot, reps[id].arguments[0]);
        }
      }
    }
  }

  lemma {:induction false} ClosedGrows(reps: seq<Expr>, more: seq<Expr>, ops: seq<StoreOperation>, present: set<Id>,
      needed: set<(Id, Id)>, open: set<Id>)
    requires WellFormed(more) && reps <= more && Closed(reps, ops, present, needed, open)
    ensures Closed(more, ops, present, needed, open)
  {
    hide WellFormed, Resolved;
    forall d | d in needed
      ensures Resolved(more, ops, present, needed, d.0) && (d.1 in open || Resolved(more, ops, present, needed, d.1))
      ensures d.1 < |more|
    {
      ResolvedGrows(reps, more, ops, present, needed, needed, d.0);
      if d.1 !in open { ResolvedGrows(reps, more, ops, present, needed, needed, d.1); }
    }
  }

  /** One more dependency of a class that is being worked on. */
  lemma {:induction false} ClosedInsert(reps: seq<Expr>, ops: seq<StoreOperation>, present: set<Id>,
      needed: set<(Id, Id)>, open: set<Id>, a: Id, b: Id)
    requires WellFormed(reps) && Closed(reps, ops, present, needed, open) && Resolved(reps, ops, present, needed, a)
    requires b in open && b < |reps|
    ensures Closed(reps, ops, present, needed + {(a, b)}, open)
  {
    hide WellFormed, Resolved;
    var more := needed + {(a, b)};
    forall d | d in more
      ensures Resolved(reps, ops, present, more, d.0) && (d.1 in open || Resolved(reps, ops, present, more, d.1))
      ensures d.1 < |reps|
    {
      ResolvedGrows(reps, reps, ops, present, needed, more, d.0);
      if d.1 !in open { ResolvedGrows(reps, reps, ops, present, needed, more, d.1); }
    }
  }

  lemma {:induction false} ClosedDone(reps: seq<Expr>, ops: seq<StoreOperation>, present: set<Id>,
      needed: set<(Id, Id)>, open: set<Id>, c: Id)
    requires Closed(reps, ops, present, needed, open + {c}) && Resolved(reps, ops, present, needed, c)
    ensures Closed(reps, ops, present, needed, open)
  {
    hide Resolved;
  }

  lemma {:induction false} ClosedOpen(reps: seq<Expr>, ops: seq<StoreOperation>, present: set<Id>,
      needed: set<(Id, Id)>, open: set<Id>, c: Id)
    requires Closed(reps, ops, present, needed, open)
    ensures Closed(reps, ops, present, needed, open + {c})
  {
    hide Resolved;
  }

  // ----- loads are ready in sequence order -----

  /** Stores that a load waits for have been executed, and no store after it. */
  ghost predicate InOrder(p: Plan, needed: set<(Id, Id)>, id: Id, done: set<nat>) {
    && id < |p.reps|
    && (forall j :: j in done ==> j < |p.ops| && 2 * j + 2 < p.reps[id].sequenceNumber)
    && (forall j :: 0 <= j < |p.ops| && 2 * j + 2 < p.reps[id].sequenceNumber && (p.ops[j].expression, id) in needed ==> j in done)
  }

  lemma {:induction false} PlanNumbered(p: Plan)
    requires PlanOk(p)
    ensures Numbered(p.ops) && forall j :: 0 <= j < |p.ops| ==> StoreOk(p.ops[j], p.reps)
  {
  }

  /** Two stores of one group touch the same places. */
  lemma {:induction false} SameGroupTouches(p: Plan, vals: seq<Word>, i: nat, j: nat, place: Place)
    requires PlanOk(p) && |vals| == |p.reps| && i < |p.ops| && j < |p.ops|
    requires SameGroup(p.ops[i], p.ops[j].target, p.ops[j].slot)
    ensures Touches(WriteOf(p, vals, i), place) == Touches(WriteOf(p, vals, j), place)
  {
  }

  /** A place is decided by the last store of some group. */
  lemma {:induction false} LastTouchIsLatest(p: Plan, vals: seq<Word>, q: nat, j: nat, place: Place)
    requires PlanOk(p) && |vals| == |p.reps| && q <= |p.ops| && LastTouch(WritesOf(p, vals), j, q, place)
    ensures var g := Group(p.ops[..q], p.ops[j].target, p.ops[j].slot); g != [] && g[|g| - 1] == p.ops[j]
  {
    hide PlanOk, Touches, Group, WriteOf;
    var t, s, early := p.ops[j].target, p.ops[j].slot, p.ops[..q];
    assert SameGroup(early[j], t, s);
    var l := GroupLast(early, t, s);
    assert early[l] == p.ops[l];
    SameGroupTouches(p, vals, l, j, place);
    assert Touches(WritesOf(p, vals)[l], place);
    assert !(l < j);
    assert !(j < l);
  }

  /** The places a load reads. */
  predicate ReadsPlace(t: Target, slot: Word, place: Place) {
    match place
    case Slot(a) => t == InStorage && a == slot
    case CellAt(a) => t == InMemory && OffsetFrom(slot, a) < 32
  }

  lemma {:induction false} IndependentMisses(reps: seq<Expr>, t: Target, a: Id, b: Id, c: Context, x: Write,
      place: Place)
    requires ContextOk(c) && Independent(reps, t, a, b) && x.target == t && x.slot == Values(c, reps)[a]
    requires ReadsPlace(t, Values(c, reps)[b], place)
    ensures !Touches(x, place)
  {
    hide ContextOk, WellFormed, FarApart;
    ContextIsSensible(c);
    if t == InMemory {
      assert FarApart(Values(c, reps)[a], Values(c, reps)[b]);
      FarMisses(Values(c, reps)[a], Values(c, reps)[b], place.at);
    }
  }

  lemma {:induction false} FarMisses(store: Word, load: Word, cell: Word)
    requires FarApart(store, load) && OffsetFrom(load, cell) < 32
    ensures OffsetFrom(store, cell) >= 32
  {
    FarApartSymmetric(store, load);
    FarOffset(load, store, OffsetFrom(load, cell));
  }

  lemma {:induction false} LoadCovered(p: Plan, c: Context, needed: set<(Id, Id)>, id: Id, done: set<nat>, q: nat,
      place: Place)
    requires Consistent(p, c) && id < |p.reps| && IsLoad(p.reps[id]) && |p.reps[id].arguments| == 1
    requires p.reps[id].arguments[0] < |p.reps|
    requires p.reps[id].sequenceNumber == 2 * q + 1 && q <= |p.ops|
    requires LoadResolved(p.reps, p.ops, needed, id) && InOrder(p, needed, id, done)
    requires ReadsPlace(LoadTarget(p.reps[id]), Values(c, p.reps)[p.reps[id].arguments[0]], place)
    ensures Covered(WritesOf(p, Values(c, p.reps)), done, q, place)
  {
    hide ContextOk, HistoryIs, WellFormed, OpsOk, Group, Independent, Touches;
    var vals, writes := Values(c, p.reps), WritesOf(p, Values(c, p.reps));
    forall j: nat | LastTouch(writes, j, q, place) ensures j in done {
      LastTouchIsLatest(p, vals, q, j, place);
      TouchTarget(p, c, id, j, place);
      assert SlotSettled(p.reps, p.ops, needed, id, p.ops[j].slot);
      var t := LoadTarget(p.reps[id]);
      if Independent(p.reps, t, p.ops[j].slot, p.reps[id].arguments[0]) {
        IndependentMisses(p.reps, t, p.ops[j].slot, p.reps[id].arguments[0], c, writes[j], place);
      }
      assert (p.ops[j].expression, id) in needed;
    }
  }

  lemma {:induction false} TouchTarget(p: Plan, c: Context, id: Id, j: nat, place: Place)
    requires PlanOk(p) && id < |p.reps| && p.reps[id].arguments != [] && p.reps[id].arguments[0] < |p.reps|
    requires j < |p.ops|
    requires ReadsPlace(LoadTarget(p.reps[id]), Values(c, p.reps)[p.reps[id].arguments[0]], place)
    requires Touches(WritesOf(p, Values(c, p.reps))[j], place)
    ensures StoreOk(p.ops[j], p.reps) && p.ops[j].target == LoadTarget(p.reps[id])
    ensures WritesOf(p, Values(c, p.reps))[j].target == p.ops[j].target
    ensures WritesOf(p, Values(c, p.reps))[j].slot == Values(c, p.reps)[p.ops[j].slot]
  {
    hide WellFormed;
    assert StoreOk(p.ops[j], p.reps);
  }

  /** Loads executed in sequence order find the values they found in the block, whatever aliases. */
  lemma {:induction false} ResolvedLoadReady(p: Plan, needed: set<(Id, Id)>, id: Id, done: set<nat>, q: nat)
    requires PlanOk(p) && id < |p.reps| && IsLoad(p.reps[id]) && p.reps[id].sequenceNumber == 2 * q + 1 && q <= |p.ops|
    requires |p.reps[id].arguments| > 0 && LoadResolved(p.reps, p.ops, needed, id) && InOrder(p, needed, id, done)
    ensures LoadReady(p, id, done)
  {
    hide Consistent, LoadReadyIn, LoadResolved, InOrder, PlanOk;
    forall c | Consistent(p, c) ensures LoadReadyIn(p, c, id, done) {
      LoadReadyHere(p, c, needed, id, done, q);
    }
  }

  lemma {:induction false} LoadReadyHere(p: Plan, c: Context, needed: set<(Id, Id)>, id: Id, done: set<nat>, q: nat)
    requires Consistent(p, c) && id < |p.reps| && IsLoad(p.reps[id]) && p.reps[id].sequenceNumber == 2 * q + 1
    requires q <= |p.ops|
    requires |p.reps[id].arguments| > 0 && LoadResolved(p.reps, p.ops, needed, id) && InOrder(p, needed, id, done)
    ensures LoadReadyIn(p, c, id, done)
  {
    hide WellFormed, OpsOk, LoadResolved, Replay, WritesOf, LinkedEnv, NumericWorld, SlotHolds, AddressHolds;
    LoadShaped(p.reps, id);
    HistoryNonEmpty(c);
    var vals, writes := Values(c, p.reps), WritesOf(p, Values(c, p.reps));
    var w, slot := Replay(c.history[0], writes, done, |p.ops|), vals[p.reps[id].arguments[0]];
    ReplayShort(c.history[0], writes, done, q, |p.ops|);
    forall place | ReadsPlace(LoadTarget(p.reps[id]), slot, place)
      ensures ContentAt(w, place) == ContentAt(c.history[q], place)
    {
      LoadCovered(p, c, needed, id, done, q, place);
      ReplayAgrees(c.history, writes, done, q, place);
    }
    LoadFromHistory(c, p.reps, id, q, w);
  }

  lemma {:induction false} LoadShaped(reps: seq<Expr>, id: Id)
    requires WellFormed(reps) && id < |reps| && IsLoad(reps[id])
    ensures |reps[id].arguments| == 1 && reps[id].arguments[0] < id
  {
    assert ExprOk(reps[id], id);
  }

  /** A world that agrees with the block's world at the load gives the value of the load. */
  lemma {:induction false} LoadFromHistory(c: Context, reps: seq<Expr>, id: Id, q: nat, w: World)
    requires ContextOk(c) && WellFormed(reps) && id < |reps| && IsLoad(reps[id]) && |reps[id].arguments| == 1
    requires reps[id].arguments[0] < |reps|
    requires reps[id].sequenceNumber == 2 * q + 1 && q < |c.history|
    requires forall place :: ReadsPlace(LoadTarget(reps[id]), Values(c, reps)[reps[id].arguments[0]], place) ==>
              ContentAt(w, place) == ContentAt(c.history[q], place)
    ensures var vals := Values(c, reps); var slot := vals[reps[id].arguments[0]];
            if reps[id].item == Operation(SLOAD) then SlotHolds(w.storage, slot, vals[id]) else AddressHolds(w.memory, slot, vals[id])
  {
    hide WellFormed, LinkedEnv, ReadWord;
    ClassValue(c, reps, id);
    var slot := Values(c, reps)[reps[id].arguments[0]];
    assert Pick(Values(c, reps), reps[id].arguments)[0] == slot;
    assert NumericWorld(c.history[q]);
    if reps[id].item == Operation(SLOAD) {
      assert ContentAt(w, Slot(slot)) == ContentAt(c.history[q], Slot(slot));
    } else {
      NumericRead(c.history[q], slot);
      forall i | 0 <= i < 32
        ensures ContentAt(w, CellAt(AddressAt(slot, i))) == ContentAt(c.history[q], CellAt(AddressAt(slot, i)))
      {
        assert ReadsPlace(InMemory, slot, CellAt(AddressAt(slot, i)));
      }
      SameRead(w, c.history[q], slot);
    }
  }

  // ----- nothing that matters was dropped -----

  /** The last store to every slot has been executed. */
  predicate BacksDone(ops: seq<StoreOperation>, done: set<nat>) {
    forall j :: 0 <= j < |ops| ==> (var g := Group(ops, ops[j].target, ops[j].slot); g != [] && g[|g| - 1] == ops[j]) ==> j in done
  }

  /** Dropping overwritten stores leaves the same final storage and memory. */
  lemma {:induction false} FinalWorld(p: Plan, c: Context, done: set<nat>)
    requires Consistent(p, c) && BacksDone(p.ops, done)
    ensures Replay(c.history[0], WritesOf(p, Values(c, p.reps)), done, |p.ops|) == c.history[|p.ops|]
  {
    hide ContextOk, WellFormed, OpsOk, Group, Touches;
    var vals, writes := Values(c, p.reps), WritesOf(p, Values(c, p.reps));
    forall place: Place ensures Covered(writes, done, |p.ops|, place) {
      forall j: nat | LastTouch(writes, j, |p.ops|, place) ensures j in done {
        LastTouchIsLatest(p, vals, |p.ops|, j, place);
        assert p.ops[..|p.ops|] == p.ops;
      }
    }
    ReplayIsHistory(c.history, writes, done);
  }
}
