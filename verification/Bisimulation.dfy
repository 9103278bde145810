/** Programs that differ in which of several equivalent blocks they jump to. */
module Bisimulation {
  import opened Words
  import opened Instructions
  import opened Items
  import opened Machine
  import opened Segments
  import opened TagRelation

  /** Control never continues after such an item. */
  predicate EndsBlock(item: Item) { item.Operation? && AltersControlFlow(item.op) && item.op != JUMPI }

  function MapItem(rt: Roots, item: Item): Item { if IsPushTag(item) then PushTagItem(rt(item.data)) else item }

  /** The code from a position on, as far as it can be reached without jumping: tags skipped, tags
      pushed replaced by their roots. */
  function Image(items: seq<Item>, rt: Roots, i: nat): seq<Item>
    decreases |items| - i
  {
    if i >= |items| then []
    else if IsTag(items[i]) then Image(items, rt, i + 1)
    else if EndsBlock(items[i]) then [MapItem(rt, items[i])]
    else [MapItem(rt, items[i])] + Image(items, rt, i + 1)
  }

  predicate PlacedAt(items: seq<Item>, t: Word, k: nat) { k < |items| && items[k] == TagItem(t) }

  /** Equivalent tags lead to the same code, up to equivalent tags. */
  ghost predicate Coherent(items: seq<Item>, rt: Roots) {
    && (forall a: Word, b: Word, j: nat, k: nat :: rt(a) == rt(b) && PlacedAt(items, a, j) && PlacedAt(items, b, k) ==>
          Image(items, rt, j) == Image(items, rt, k))
    && (forall a: Word, b: Word :: rt(a) == rt(b) && a != b ==> exists k: nat :: PlacedAt(items, b, k))
  }

  /** The same program, up to equivalent tags. */
  predicate SameProgram(rt: Roots, p: seq<Item>, q: seq<Item>) {
    |p| == |q| && forall i :: 0 <= i < |p| ==> SameItem(rt, p[i], q[i])
  }

  lemma {:induction false} SameImage(rt: Roots, p: seq<Item>, q: seq<Item>, i: nat)
    requires SameProgram(rt, p, q)
    ensures Image(p, rt, i) == Image(q, rt, i)
    decreases |p| - i
  {
    if i < |p| {
      assert SameItem(rt, p[i], q[i]);
      SameImage(rt, p, q, i + 1);
    }
  }

  lemma {:induction false} SamePlaces(rt: Roots, p: seq<Item>, q: seq<Item>, t: Word, k: nat)
    requires SameProgram(rt, p, q)
    ensures PlacedAt(p, t, k) <==> PlacedAt(q, t, k)
  {
    if k < |p| { assert SameItem(rt, p[k], q[k]); }
  }

  lemma {:induction false} CoherentToo(rt: Roots, p: seq<Item>, q: seq<Item>)
    requires SameProgram(rt, p, q) && Coherent(p, rt)
    ensures Coherent(q, rt)
  {
    hide Image, SameProgram, PlacedAt;
    forall a: Word, b: Word, j: nat, k: nat | rt(a) == rt(b) && PlacedAt(q, a, j) && PlacedAt(q, b, k)
      ensures Image(q, rt, j) == Image(q, rt, k)
    {
      SamePlaces(rt, p, q, a, j);
      SamePlaces(rt, p, q, b, k);
      SameImage(rt, p, q, j);
      SameImage(rt, p, q, k);
    }
    forall a: Word, b: Word | rt(a) == rt(b) && a != b ensures exists k: nat :: PlacedAt(q, b, k) {
      var k: nat :| PlacedAt(p, b, k);
      SamePlaces(rt, p, q, b, k);
    }
  }

  lemma {:induction false} SameProgramBack(rt: Roots, p: seq<Item>, q: seq<Item>)
    requires SameProgram(rt, p, q)
    ensures SameProgram(rt, q, p)
  {
    forall i | 0 <= i < |q| ensures SameItem(rt, q[i], p[i]) { assert SameItem(rt, p[i], q[i]); }
  }

  // ----- running both -----

  /** Tags that are skipped do nothing. */
  lemma {:induction false} SkipTags(env: Env, items: seq<Item>, rt: Roots, i: nat, s: State,
      o: Outcome) returns (k: nat)
    requires Image(items, rt, i) != []
    ensures i <= k < |items| && !IsTag(items[k]) && Image(items, rt, k) == Image(items, rt, i)
    ensures HaltsWith(env, items, k, s, o) ==> HaltsWith(env, items, i, s, o)
    decreases |items| - i
  {
    hide HaltsWith;
    if IsTag(items[i]) {
      k := SkipTags(env, items, rt, i + 1, s, o);
      if HaltsWith(env, items, i + 1, s, o) { OneStep(env, items, i, s, i + 1, s, o); }
    } else {
      k := i;
    }
  }

  lemma {:induction false} OnlyTags(env: Env, items: seq<Item>, rt: Roots, i: nat, s: State)
    requires Image(items, rt, i) == []
    ensures HaltsWith(env, items, i, s, StopWith(s.world, []).outcome)
    decreases |items| - i
  {
    hide HaltsWith;
    if i >= |items| {
      LastStep(env, items, i, s, StopWith(s.world, []).outcome);
    } else {
      OnlyTags(env, items, rt, i + 1, s);
      OneStep(env, items, i, s, i + 1, s, StopWith(s.world, []).outcome);
    }
  }

  lemma {:induction false} OpaqueDistinct(env: Env, items: seq<Item>)
    requires OpaqueTags(env)
    ensures DistinctTags(env, items)
  {
  }

  /** Two positions with the same image: the first items match, and so does what follows. */
  lemma {:induction false} ImageHeads(items: seq<Item>, items': seq<Item>, rt: Roots, i: nat, k: nat)
    requires i < |items| && k < |items'| && !IsTag(items[i]) && !IsTag(items'[k])
    requires Image(items, rt, i) == Image(items', rt, k)
    ensures SameItem(rt, items[i], items'[k])
    ensures !EndsBlock(items[i]) ==> Image(items, rt, i + 1) == Image(items', rt, k + 1)
  {
    var x, y := Image(items, rt, i), Image(items', rt, k);
    assert x[0] == MapItem(rt, items[i]) && y[0] == MapItem(rt, items'[k]);
    if !EndsBlock(items[i]) {
      assert x[1..] == Image(items, rt, i + 1);
      assert y[1..] == Image(items', rt, k + 1);
    }
  }

  lemma {:induction false} EndsBlockNoNext(env: Env, item: Item, s: State)
    requires EndsBlock(item)
    ensures !StepItem(env, item, s).Next?
  {
  }

  /** Where a jump to one of two equivalent tags lands, a jump to the other lands on the same code. */
  lemma {:induction false} LandsAlike(env: Env, rt: Roots, p: seq<Item>, q: seq<Item>, to: Value, to': Value,
      k: nat) returns (k': nat)
    requires OpaqueTags(env) && Coherent(p, rt) && SameProgram(rt, p, q) && SameValue(rt, to, to')
    requires TagAt(env, p, to, k)
    ensures TagAt(env, q, to', k') && Image(p, rt, k) == Image(q, rt, k')
  {
    hide Image, SameProgram;
    var a, b := to.tag, to'.tag;
    assert PlacedAt(p, a, k);
    k' := k;
    if a != b { k' :| PlacedAt(p, b, k'); }
    assert Image(p, rt, k) == Image(p, rt, k');
    SamePlaces(rt, p, q, b, k');
    SameImage(rt, p, q, k');
  }

  /** A halting run of one program is matched by the other one. */
  lemma {:induction false} Follow(env: Env, rt: Roots, p: seq<Item>, q: seq<Item>, i: nat, i': nat, s: State,
      s': State, fuel: nat, o: Outcome)
    requires OpaqueTags(env) && Coherent(p, rt) && SameProgram(rt, p, q) && UniqueTags(q)
    requires SameState(rt, s, s') && Image(p, rt, i) == Image(q, rt, i') && RunProgram(env, p, i, s, fuel) == Some(o)
    ensures HaltsWith(env, q, i', s', o)
    decreases fuel
  {
    hide HaltsWith, Coherent, SameProgram, UniqueTags, SameState, StepItem, OpaqueTags;
    if Image(p, rt, i) == [] {
      EndsAlike(env, rt, p, q, i, i', s, s', fuel, o);
    } else if IsTag(p[i]) {
      TagStep(env, p, i, s);
      Follow(env, rt, p, q, i + 1, i', s, s', fuel - 1, o);
    } else {
      var k := SkipTags(env, q, rt, i', s', o);
      ImageHeads(p, q, rt, i, k);
      SameStep(rt, env, p[i], q[k], s, s');
      var f, f' := StepItem(env, p[i], s), StepItem(env, q[k], s');
      if f.Halt? {
        LastStep(env, q, k, s', o);
      } else if f.Next? {
        if EndsBlock(p[i]) { EndsBlockNoNext(env, p[i], s); }
        Follow(env, rt, p, q, i + 1, k + 1, f.state, f'.state, fuel - 1, o);
        OneStep(env, q, k, s', k + 1, f'.state, o);
      } else {
        assert f.Jump?;
        var j :| TagAt(env, p, f.to, j) && StepProgram(env, p, i, s) == At(j, f.after);
        var j' := LandsAlike(env, rt, p, q, f.to, f'.to, j);
        Follow(env, rt, p, q, j, j', f.after, f'.after, fuel - 1, o);
        OpaqueDistinct(env, q);
        JumpLands(env, q, k, s', j');
        OneStep(env, q, k, s', j', f'.after, o);
      }
    }
  }

  lemma {:induction false} TagStep(env: Env, items: seq<Item>, i: nat, s: State)
    requires i < |items| && IsTag(items[i])
    ensures StepProgram(env, items, i, s) == At(i + 1, s)
  {
  }

  lemma {:induction false} EndsAlike(env: Env, rt: Roots, p: seq<Item>, q: seq<Item>, i: nat, i': nat, s: State,
      s': State, fuel: nat, o: Outcome)
    requires SameState(rt, s, s') && Image(p, rt, i) == [] && Image(q, rt, i') == []
    requires RunProgram(env, p, i, s, fuel) == Some(o)
    ensures HaltsWith(env, q, i', s', o)
    decreases fuel
  {
    hide HaltsWith, ViewOf;
    if i < |p| {
      TagStep(env, p, i, s);
      EndsAlike(env, rt, p, q, i + 1, i', s, s', fuel - 1, o);
    } else {
      SameView(rt, s.world, s'.world);
      OnlyTags(env, q, rt, i', s');
    }
  }

  lemma {:induction false} SameSelf(rt: Roots, s: State)
    ensures SameState(rt, s, s)
  {
  }

  /** Both programs halt from the same states with the same outcomes. */
  ghost predicate Bisimilar(p: seq<Item>, q: seq<Item>) {
    forall env, s, o | OpaqueTags(env) :: HaltsWith(env, p, 0, s, o) <==> HaltsWith(env, q, 0, s, o)
  }

  lemma {:induction false} FollowStart(env: Env, rt: Roots, p: seq<Item>, q: seq<Item>, s: State, o: Outcome)
    requires OpaqueTags(env) && Coherent(p, rt) && SameProgram(rt, p, q) && UniqueTags(q) && HaltsWith(env, p, 0, s, o)
    ensures HaltsWith(env, q, 0, s, o)
  {
    hide Coherent, SameProgram, UniqueTags, SameState, OpaqueTags;
    var fuel: nat :| RunProgram(env, p, 0, s, fuel) == Some(o);
    SameSelf(rt, s);
    SameImage(rt, p, q, 0);
    Follow(env, rt, p, q, 0, 0, s, s, fuel, o);
  }

  lemma {:induction false} SameTags(rt: Roots, p: seq<Item>, q: seq<Item>)
    requires SameProgram(rt, p, q) && UniqueTags(p)
    ensures UniqueTags(q)
  {
    forall i | 0 <= i < |p|
      ensures IsTag(p[i]) == IsTag(q[i]) && (IsTag(p[i]) ==> p[i] == q[i])
    { assert SameItem(rt, p[i], q[i]); }
  }

  lemma {:induction false} EquivalentPrograms(rt: Roots, p: seq<Item>, q: seq<Item>)
    requires Coherent(p, rt) && SameProgram(rt, p, q) && UniqueTags(p)
    ensures Bisimilar(p, q)
  {
    hide Coherent, SameProgram, UniqueTags, OpaqueTags, HaltsWith;
    SameTags(rt, p, q);
    CoherentToo(rt, p, q);
    SameProgramBack(rt, p, q);
    forall env, s, o | OpaqueTags(env) ensures HaltsWith(env, p, 0, s, o) <==> HaltsWith(env, q, 0, s, o) {
      if HaltsWith(env, p, 0, s, o) { FollowStart(env, rt, p, q, s, o); }
      if HaltsWith(env, q, 0, s, o) { FollowStart(env, rt, q, p, s, o); }
    }
  }
}
