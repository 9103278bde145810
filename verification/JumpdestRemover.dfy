/** Removal of tags that nothing refers to. */
module JumpdestRemovers {
  import opened Words
  import opened Instructions
  import opened Items
  import opened Machine
  import opened Segments
  import opened TagRelation
  import Bisimulation
  import opened TagData

  // ----- the pass -----

  /** Tags of this assembly that are pushed. */
  predicate Referenced(items: seq<Item>, t: nat) {
    exists i :: 0 <= i < |items| && IsPushTag(items[i]) && IsLocal(items[i].data) && Cut(items[i].data) == t
  }

  predicate IsKept(item: Item, references: set<nat>) { IsTag(item) ==> Cut(item.data) in references }

  function Kept(items: seq<Item>, references: set<nat>): seq<Item>
    decreases |items|
  {
    if items == [] then []
    else
      var n := |items| - 1;
      Kept(items[..n], references) + if IsKept(items[n], references) then [items[n]] else []
  }

  /** Tags name code of this assembly only. */
  predicate LocalTags(items: seq<Item>) { forall i :: 0 <= i < |items| && IsTag(items[i]) ==> IsLocal(items[i].data) }

  method ReferencedTags(items: seq<Item>) returns (r: set<nat>)
    ensures forall t :: t in r <==> Referenced(items, t)
  {
    hide Cut, IsLocal;
    r := {};
    for i := 0 to |items|
      invariant forall t :: t in r <==> Referenced(items[..i], t)
    {
      NextReferenced(items, i);
      if IsPushTag(items[i]) && IsLocal(items[i].data) { r := r + {Cut(items[i].data)}; }
    }
    assert items[..|items|] == items;
  }

  lemma {:induction false} NextReferenced(items: seq<Item>, i: nat)
    requires i < |items|
    ensures forall t :: Referenced(items[..i + 1], t) <==> Referenced(items[..i], t) || (IsPushTag(items[i]) && IsLocal(items[i].data) && Cut(items[i].data) == t)
  {
    hide Cut, IsLocal;
    var a, b := items[..i], items[..i + 1];
    assert forall k :: 0 <= k < i ==> a[k] == b[k];
    forall t
      ensures Referenced(b, t) <==> Referenced(a, t) || (IsPushTag(items[i]) && IsLocal(items[i].data) && Cut(items[i].data) == t)
    {
      if Referenced(a, t) {
        var k :| 0 <= k < |a| && IsPushTag(a[k]) && IsLocal(a[k].data) && Cut(a[k].data) == t;
        assert b[k] == a[k];
      }
      assert b[i] == items[i];
    }
  }

  class JumpdestRemover {
    var items: seq<Item>

    constructor (items: seq<Item>)
      ensures this.items == items
    {
      this.items := items;
    }

    /** Removes tags that are neither pushed nor used from outside; fails on tags of other assemblies. */
    method Optimise(outside: set<nat>) returns (ok: bool, changed: bool)
      modifies this
      ensures ok == LocalTags(old(items))
      ensures ok ==> changed == (items != old(items)) && (changed ==> |items| < |old(items)|)
      ensures ok ==> PreservesLive(outside, old(items), items)
      ensures ok ==> forall i :: 0 <= i < |items| && IsTag(items[i]) ==> Cut(items[i].data) in outside || Referenced(old(items), Cut(items[i].data))
      ensures ok ==> LocalTags(items) && NoNewTags(old(items), items)
    {
      hide IsLocal, Referenced, PreservesLive, Cut, NoNewTags;
      var references := ReferencedTags(items);
      references := references + outside;
      var initial := items;
      var rest: seq<Item> := [];
      for i := 0 to |initial|
        invariant items == initial && LocalTags(initial[..i]) && rest == Kept(initial[..i], references)
      {
        assert initial[..i + 1][..i] == initial[..i];
        if IsTag(initial[i]) && !IsLocal(initial[i].data) { return false, false; }
        if IsKept(initial[i], references) { rest := rest + [initial[i]]; }
      }
      assert initial[..|initial|] == initial;
      items := rest;
      KeptShorter(initial, references);
      ok, changed := true, |items| != |initial|;
      KeptTags(initial, references);
      OldTags(initial, rest);
      RemovalPreserves(initial, outside, references);
    }
  }

  lemma {:induction false} KeptShorter(items: seq<Item>, references: set<nat>)
    ensures |Kept(items, references)| <= |items|
    ensures |Kept(items, references)| == |items| ==> Kept(items, references) == items
    decreases |items|
  {
    hide IsKept;
    if items != [] {
      var n := |items| - 1;
      KeptShorter(items[..n], references);
      assert items == items[..n] + [items[n]];
    }
  }

  lemma {:induction false} KeptTags(items: seq<Item>, references: set<nat>)
    ensures forall i :: 0 <= i < |Kept(items, references)| ==> IsKept(Kept(items, references)[i], references)
    ensures forall x :: x in Kept(items, references) ==> x in items
    decreases |items|
  {
    hide IsKept;
    if items != [] { KeptTags(items[..|items| - 1], references); }
  }

  lemma {:induction false} OldTags(items: seq<Item>, rest: seq<Item>)
    requires LocalTags(items) && forall x :: x in rest ==> x in items
    ensures LocalTags(rest) && NoNewTags(items, rest)
  {
    hide IsLocal;
    forall i | 0 <= i < |rest| && IsTag(rest[i]) ensures IsLocal(rest[i].data) { assert rest[i] in items; }
  }

  // ----- states that hold no reference to a removed tag -----

  ghost predicate LiveTag(references: set<nat>, t: Word) { IsLocal(t) ==> Cut(t) in references }

  ghost predicate LiveValue(references: set<nat>, v: Value) { v.CodeRef? ==> LiveTag(references, v.tag) }

  ghost predicate LiveStack(references: set<nat>, stack: seq<Value>) {
    forall i :: 0 <= i < |stack| ==> LiveValue(references, stack[i])
  }

  ghost predicate LiveWorld(references: set<nat>, w: World) {
    && (forall k: Word :: LiveValue(references, w.storage[k]))
    && (forall k: Word :: w.memory[k].RefPart? ==> LiveTag(references, w.memory[k].tag))
  }

  ghost predicate LiveState(references: set<nat>, s: State) {
    LiveStack(references, s.stack) && LiveWorld(references, s.world)
  }

  lemma {:induction false} LiveRead(references: set<nat>, w: World, a: Word)
    requires LiveWorld(references, w) && ReadWord(w.memory, a).Some?
    ensures LiveValue(references, ReadWord(w.memory, a).value)
  {
    hide LiveTag;
    var cells := CellsAt(w.memory, a);
    assert cells[0] == w.memory[AddressAt(a, 0)];
  }

  lemma {:induction false} LiveWrite(references: set<nat>, w: World, a: Word, v: Value)
    requires LiveWorld(references, w) && LiveValue(references, v)
    ensures LiveWorld(references, w.(memory := WriteWord(w.memory, a, v)))
  {
    hide LiveTag;
  }

  lemma {:induction false} LivePatch(references: set<nat>, w: World, e: Effect, event: Event)
    requires LiveWorld(references, w)
    ensures LiveWorld(references, PatchWorld(w, e, event))
  {
    hide LiveTag;
  }

  lemma {:induction false} LivePush(references: set<nat>, stack: seq<Value>, v: Value)
    requires LiveStack(references, stack) && LiveValue(references, v)
    ensures LiveStack(references, stack + [v])
  {
    hide LiveValue;
  }

  lemma {:induction false} LivePerform(references: set<nat>, env: Env, op: Opcode, args: seq<Value>, rest: seq<Value>,
      w: World)
    requires LiveStack(references, args) && LiveStack(references, rest) && LiveWorld(references, w)
    requires |args| == InfoOf(op).args
    requires Perform(env, op, args, rest, w).Some?
    ensures LiveState(references, Perform(env, op, args, rest, w).value)
  {
    hide ReadWord, WriteWord, PatchWorld, IsArithmetic, IsEnvironment, IsEffect, ViewOf, LiveTag;
    if op == SLOAD {
      LivePush(references, rest, w.storage[args[0].word]);
    } else if op == MLOAD {
      LiveRead(references, w, args[0].word);
      LivePush(references, rest, ReadWord(w.memory, args[0].word).value);
    } else if op == MSTORE {
      LiveWrite(references, w, args[0].word, args[1]);
    } else if op != SSTORE {
      LiveOther(references, env, op, args, rest, w);
    }
  }

  lemma {:induction false} LiveOther(references: set<nat>, env: Env, op: Opcode, args: seq<Value>, rest: seq<Value>,
      w: World)
    requires LiveStack(references, rest) && LiveWorld(references, w) && |args| == InfoOf(op).args
    requires op != SLOAD && op != SSTORE && op != MLOAD && op != MSTORE && Perform(env, op, args, rest, w).Some?
    ensures LiveState(references, Perform(env, op, args, rest, w).value)
  {
    hide PatchWorld, IsArithmetic, IsEnvironment, IsEffect, ViewOf, LiveWorld, LiveStack;
    if IsArithmetic(op) || IsEnvironment(op) {
      LivePush(references, rest, Num(env.apply(op, NumsOf(args), w.trace)));
    } else {
      var e := env.effect(op, NumsOf(args), ViewOf(w));
      LivePatch(references, w, e, Event(op, NumsOf(args)));
      LivePush(references, rest, Num(e.result));
    }
  }

  lemma {:induction false} LiveExecOp(references: set<nat>, env: Env, op: Opcode, s: State)
    requires LiveState(references, s) && ExecOp(env, op, s).Some?
    ensures LiveState(references, ExecOp(env, op, s).value)
  {
    hide Perform, LiveWorld, LiveValue, InfoOf;
    var n := |s.stack|;
    if op == POP || IsDup(op) || IsSwap(op) {
      LiveShuffle(references, env, op, s);
    } else {
      LivePerform(references, env, op, Top(s.stack, InfoOf(op).args), s.stack[..n - InfoOf(op).args], s.world);
    }
  }

  lemma {:induction false} LiveShuffle(references: set<nat>, env: Env, op: Opcode, s: State)
    requires LiveState(references, s) && ExecOp(env, op, s).Some? && (op == POP || IsDup(op) || IsSwap(op))
    ensures LiveState(references, ExecOp(env, op, s).value)
  {
    hide Perform, LiveWorld, LiveValue;
  }

  /** Only live tags are pushed. */
  ghost predicate LiveItem(references: set<nat>, item: Item) { IsPushTag(item) ==> LiveTag(references, item.data) }

  lemma {:induction false} LiveExec(references: set<nat>, env: Env, item: Item, s: State)
    requires OpaqueTags(env) && LiveState(references, s) && LiveItem(references, item) && ExecItem(env, item, s).Some?
    ensures LiveState(references, ExecItem(env, item, s).value)
  {
    hide ExecOp, LiveWorld, LiveTag;
    if item.Operation? {
      LiveExecOp(references, env, item.op, s);
    } else if item.kind != Tag {
      LivePush(references, s.stack, PushedValue(env, item.kind, item.data));
    }
  }

  lemma {:induction false} LiveStep(references: set<nat>, env: Env, item: Item, s: State)
    requires OpaqueTags(env) && LiveState(references, s) && LiveItem(references, item)
    ensures var f := StepItem(env, item, s);
            (f.Next? ==> LiveState(references, f.state)) && (f.Jump? ==> LiveState(references, f.after) && LiveValue(references, f.to))
  {
    hide ExecItem, LiveWorld, LiveValue, LiveItem, OpaqueTags;
    if ExecItem(env, item, s).Some? { LiveExec(references, env, item, s); }
  }

  // ----- both programs -----

  /** Where an item ends up. */
  function NewPlace(items: seq<Item>, references: set<nat>, i: nat): nat
    requires i <= |items|
  {
    |Kept(items[..i], references)|
  }

  lemma {:induction false} NextPlace(items: seq<Item>, references: set<nat>, i: nat)
    requires i < |items|
    ensures NewPlace(items, references, i + 1) == NewPlace(items, references, i) + if IsKept(items[i], references) then 1 else 0
    ensures NewPlace(items, references, i + 1) <= |Kept(items, references)|
    ensures IsKept(items[i], references) ==>
              NewPlace(items, references, i) < |Kept(items, references)| && Kept(items, references)[NewPlace(items, references, i)] == items[i]
    decreases |items|
  {
    hide IsKept;
    var n := |items| - 1;
    assert items[..i + 1][..i] == items[..i];
    if i < n {
      NextPlace(items[..n], references, i);
      assert items[..n][..i] == items[..i] && items[..n][..i + 1] == items[..i + 1];
    } else {
      assert items[..i + 1] == items;
    }
  }

  lemma {:induction false} LastPlace(items: seq<Item>, references: set<nat>)
    ensures NewPlace(items, references, |items|) == |Kept(items, references)|
  {
    assert items[..|items|] == items;
  }

  /** Every tag that is left comes from the same tag. */
  lemma {:induction false} OldPlace(items: seq<Item>, references: set<nat>, k: nat) returns (i: nat)
    requires k < |Kept(items, references)|
    ensures i < |items| && NewPlace(items, references, i) == k && IsKept(items[i], references)
    decreases |items|
  {
    hide IsKept;
    var n := |items| - 1;
    if k < |Kept(items[..n], references)| {
      i := OldPlace(items[..n], references, k);
      assert items[..n][..i] == items[..i];
    } else {
      i := n;
    }
  }

  ghost predicate Removable(p: seq<Item>, references: set<nat>) {
    UniqueTags(p) && LocalTags(p) && forall i :: 0 <= i < |p| ==> LiveItem(references, p[i])
  }

  lemma {:induction false} StillUnique(p: seq<Item>, references: set<nat>)
    requires UniqueTags(p)
    ensures UniqueTags(Kept(p, references))
  {
    hide IsKept, Kept;
    var q := Kept(p, references);
    forall a, b | 0 <= a < b < |q| && IsTag(q[a]) && IsTag(q[b]) ensures q[a].data != q[b].data {
      var i := OldPlace(p, references, a);
      var j := OldPlace(p, references, b);
      NextPlace(p, references, i);
      NextPlace(p, references, j);
      assert i != j;
    }
  }

  /** A live jump lands on a tag that is kept, and on the same tag in both programs. */
  lemma {:induction false} LandsOnKept(env: Env, p: seq<Item>, references: set<nat>, to: Value, k: nat)
    requires OpaqueTags(env) && Removable(p, references) && LiveValue(references, to) && TagAt(env, p, to, k)
    ensures IsKept(p[k], references) && TagAt(env, Kept(p, references), to, NewPlace(p, references, k))
  {
    hide Kept, NewPlace, UniqueTags;
    NextPlace(p, references, k);
  }

  lemma {:induction false} LandedOnKept(env: Env, p: seq<Item>, references: set<nat>, to: Value,
      k': nat) returns (k: nat)
    requires TagAt(env, Kept(p, references), to, k')
    ensures TagAt(env, p, to, k) && NewPlace(p, references, k) == k'
  {
    hide Kept, NewPlace;
    k := OldPlace(p, references, k');
    NextPlace(p, references, k);
  }

  lemma {:induction false} Forward(env: Env, p: seq<Item>, references: set<nat>, i: nat, s: State, fuel: nat,
      o: Outcome)
    requires OpaqueTags(env) && Removable(p, references) && i <= |p| && LiveState(references, s)
    requires RunProgram(env, p, i, s, fuel) == Some(o)
    ensures HaltsWith(env, Kept(p, references), NewPlace(p, references, i), s, o)
    decreases fuel
  {
    hide HaltsWith, StepItem, OpaqueTags, UniqueTags, LocalTags, LiveItem, LiveState, LiveValue, Kept, NewPlace, IsKept;
    hide TagAt;
    var q, i' := Kept(p, references), NewPlace(p, references, i);
    LastPlace(p, references);
    if i == |p| {
      LastStep(env, q, i', s, o);
    } else {
      NextPlace(p, references, i);
      if !IsKept(p[i], references) {
        NotKept(p[i], references);
        Bisimulation.TagStep(env, p, i, s);
        Forward(env, p, references, i + 1, s, fuel - 1, o);
      } else {
        LiveStep(references, env, p[i], s);
        var f := StepItem(env, p[i], s);
        if f.Halt? {
          LastStep(env, q, i', s, o);
        } else if f.Next? {
          Forward(env, p, references, i + 1, f.state, fuel - 1, o);
          OneStep(env, q, i', s, i' + 1, f.state, o);
        } else {
          assert f.Jump?;
          var k :| TagAt(env, p, f.to, k) && StepProgram(env, p, i, s) == At(k, f.after);
          InRange(env, p, f.to, k);
          LandsOnKept(env, p, references, f.to, k);
          Forward(env, p, references, k, f.after, fuel - 1, o);
          StillUnique(p, references);
          Bisimulation.OpaqueDistinct(env, q);
          JumpLands(env, q, i', s, NewPlace(p, references, k));
          OneStep(env, q, i', s, NewPlace(p, references, k), f.after, o);
        }
      }
    }
  }

  lemma {:induction false} NotKept(item: Item, references: set<nat>)
    requires !IsKept(item, references)
    ensures IsTag(item)
  {
  }

  lemma {:induction false} InRange(env: Env, items: seq<Item>, to: Value, k: nat)
    requires TagAt(env, items, to, k)
    ensures k < |items|
  {
  }

  lemma {:induction false} Back(env: Env, p: seq<Item>, references: set<nat>, i: nat, s: State, fuel: nat, o: Outcome)
    requires OpaqueTags(env) && UniqueTags(p) && i <= |p|
    requires RunProgram(env, Kept(p, references), NewPlace(p, references, i), s, fuel) == Some(o)
    ensures HaltsWith(env, p, i, s, o)
    decreases fuel, |p| - i
  {
    hide HaltsWith, StepItem, OpaqueTags, UniqueTags, Kept, NewPlace, IsKept, TagAt;
    var q, i' := Kept(p, references), NewPlace(p, references, i);
    LastPlace(p, references);
    if i == |p| {
      LastStep(env, p, i, s, o);
    } else {
      NextPlace(p, references, i);
      if !IsKept(p[i], references) {
        NotKept(p[i], references);
        Bisimulation.TagStep(env, p, i, s);
        Back(env, p, references, i + 1, s, fuel, o);
        OneStep(env, p, i, s, i + 1, s, o);
      } else {
        var f := StepItem(env, p[i], s);
        if f.Halt? {
          LastStep(env, p, i, s, o);
        } else if f.Next? {
          Back(env, p, references, i + 1, f.state, fuel - 1, o);
          OneStep(env, p, i, s, i + 1, f.state, o);
        } else {
          assert f.Jump?;
          var k' :| TagAt(env, q, f.to, k') && StepProgram(env, q, i', s) == At(k', f.after);
          var k := LandedOnKept(env, p, references, f.to, k');
          InRange(env, p, f.to, k);
          Back(env, p, references, k, f.after, fuel - 1, o);
          Bisimulation.OpaqueDistinct(env, p);
          JumpLands(env, p, i, s, k);
          OneStep(env, p, i, s, k, f.after, o);
        }
      }
    }
  }

  /** From states that hold only tags pushed here or known outside, both programs halt with the same outcomes. */
  ghost predicate PreservesLive(outside: set<nat>, p: seq<Item>, q: seq<Item>) {
    UniqueTags(p) ==>
      && UniqueTags(q)
      && forall env, s, o | OpaqueTags(env) && LiveState(outside, s) :: HaltsWith(env, p, 0, s, o) <==> HaltsWith(env, q, 0, s, o)
  }

  lemma {:induction false} LiveMore(outside: set<nat>, references: set<nat>, s: State)
    requires LiveState(outside, s) && outside <= references
    ensures LiveState(references, s)
  {
  }

  lemma {:induction false} RemovalPreserves(p: seq<Item>, outside: set<nat>, references: set<nat>)
    requires LocalTags(p) && forall t :: t in references <==> t in outside || Referenced(p, t)
    ensures PreservesLive(outside, p, Kept(p, references))
  {
    hide HaltsWith, OpaqueTags, UniqueTags, Kept, LiveState, LocalTags, Cut, IsLocal;
    if UniqueTags(p) {
      StillUnique(p, references);
      var q := Kept(p, references);
      forall i | 0 <= i < |p| ensures LiveItem(references, p[i]) {
        if IsPushTag(p[i]) && IsLocal(p[i].data) { assert Referenced(p, Cut(p[i].data)); }
      }
      StartPlace(p, references);
      forall env, s, o | OpaqueTags(env) && LiveState(outside, s)
        ensures HaltsWith(env, p, 0, s, o) <==> HaltsWith(env, q, 0, s, o)
      {
        LiveMore(outside, references, s);
        if HaltsWith(env, p, 0, s, o) {
          var fuel := FuelOf(env, p, 0, s, o);
          Forward(env, p, references, 0, s, fuel, o);
        }
        if HaltsWith(env, q, 0, s, o) {
          var fuel := FuelOf(env, q, 0, s, o);
          Back(env, p, references, 0, s, fuel, o);
        }
      }
    }
  }

  lemma {:induction false} StartPlace(p: seq<Item>, references: set<nat>)
    ensures NewPlace(p, references, 0) == 0
  {
  }

  lemma {:induction false} FuelOf(env: Env, p: seq<Item>, i: nat, s: State, o: Outcome) returns (fuel: nat)
    requires HaltsWith(env, p, i, s, o)
    ensures RunProgram(env, p, i, s, fuel) == Some(o)
  {
    hide RunProgram;
    fuel :| RunProgram(env, p, i, s, fuel) == Some(o);
  }
}
