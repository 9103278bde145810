/** A pass that rewrites a program piece by piece keeps its behaviour if every piece keeps its own. */
module Pieces {
  import opened Words
  import opened Instructions
  import opened Items
  import opened Machine
  import opened Knowledge
  import opened Segments

  /** A piece of the program before the pass and what the pass makes of it. */
  datatype Piece = Piece(before: seq<Item>, after: seq<Item>)

  function Befores(ps: seq<Piece>): seq<Item>
    decreases |ps|
  {
    if |ps| == 0 then [] else Befores(ps[..|ps| - 1]) + ps[|ps| - 1].before
  }

  function Afters(ps: seq<Piece>): seq<Item>
    decreases |ps|
  {
    if |ps| == 0 then [] else Afters(ps[..|ps| - 1]) + ps[|ps| - 1].after
  }

  predicate IsTagPiece(p: Piece) { |p.before| == 1 && IsTag(p.before[0]) && p.after == p.before }

  predicate Shaped(ps: seq<Piece>) {
    forall i :: 0 <= i < |ps| ==> IsTagPiece(ps[i]) || (NoTags(ps[i].before) && NoTags(ps[i].after))
  }

  /** The tag that directly follows a piece, if one does. */
  function NextTag(ps: seq<Piece>, i: nat): Option<Word> {
    if i + 1 < |ps| && IsTagPiece(ps[i + 1]) then Some(ps[i + 1].before[0].data) else None
  }

  /** The same flow, or falling through to a tag instead of jumping to it. */
  ghost predicate FlowMatches(env: Env, next: Option<Word>, f: Flow, f': Flow) {
    f' == f || (f.Jump? && f' == Next(f.after) && next.Some? && f.to == env.tag(next.value))
  }

  /** Wherever the old piece gets somewhere, the new one gets to the same place. */
  ghost predicate Refines(env: Env, next: Option<Word>, before: seq<Item>, after: seq<Item>) {
    forall s | NumericState(s) ::
      RunSegment(env, before, s).Stuck? || FlowMatches(env, next, RunSegment(env, before, s), RunSegment(env, after, s))
  }

  ghost predicate AllRefine(env: Env, ps: seq<Piece>) {
    forall i :: 0 <= i < |ps| && !IsTagPiece(ps[i]) ==> Refines(env, NextTag(ps, i), ps[i].before, ps[i].after)
  }

  // ----- positions -----

  function Start(ps: seq<Piece>, i: nat): nat
    requires i <= |ps|
  {
    |Befores(ps[..i])|
  }

  function NewStart(ps: seq<Piece>, i: nat): nat
    requires i <= |ps|
  {
    |Afters(ps[..i])|
  }

  lemma {:induction false} BeforesAt(ps: seq<Piece>, i: nat)
    requires i < |ps|
    ensures Start(ps, i) + |ps[i].before| == Start(ps, i + 1) <= |Befores(ps)|
    ensures Befores(ps)[Start(ps, i)..Start(ps, i + 1)] == ps[i].before
    decreases |ps|
  {
    var n := |ps| - 1;
    assert ps[..i + 1][..i] == ps[..i];
    if i == n {
      assert ps[..i + 1] == ps;
    } else {
      BeforesAt(ps[..n], i);
      assert ps[..n][..i] == ps[..i] && ps[..n][..i + 1] == ps[..i + 1];
      assert Befores(ps) == Befores(ps[..n]) + ps[n].before;
    }
  }

  lemma {:induction false} AftersAt(ps: seq<Piece>, i: nat)
    requires i < |ps|
    ensures NewStart(ps, i) + |ps[i].after| == NewStart(ps, i + 1) <= |Afters(ps)|
    ensures Afters(ps)[NewStart(ps, i)..NewStart(ps, i + 1)] == ps[i].after
    decreases |ps|
  {
    var n := |ps| - 1;
    assert ps[..i + 1][..i] == ps[..i];
    if i == n {
      assert ps[..i + 1] == ps;
    } else {
      AftersAt(ps[..n], i);
      assert ps[..n][..i] == ps[..i] && ps[..n][..i + 1] == ps[..i + 1];
      assert Afters(ps) == Afters(ps[..n]) + ps[n].after;
    }
  }

  /** The piece a position belongs to. */
  lemma {:induction false} PieceOf(ps: seq<Piece>, k: nat) returns (i: nat)
    requires k < |Befores(ps)|
    ensures i < |ps| && Start(ps, i) <= k < Start(ps, i) + |ps[i].before|
    ensures Befores(ps)[k] == ps[i].before[k - Start(ps, i)]
    decreases |ps|
  {
    var n := |ps| - 1;
    if k < |Befores(ps[..n])| {
      i := PieceOf(ps[..n], k);
      assert ps[..n][..i] == ps[..i];
    } else {
      i := n;
    }
  }

  lemma {:induction false} NewPieceOf(ps: seq<Piece>, k: nat) returns (i: nat)
    requires k < |Afters(ps)|
    ensures i < |ps| && NewStart(ps, i) <= k < NewStart(ps, i) + |ps[i].after|
    ensures Afters(ps)[k] == ps[i].after[k - NewStart(ps, i)]
    decreases |ps|
  {
    var n := |ps| - 1;
    if k < |Afters(ps[..n])| {
      i := NewPieceOf(ps[..n], k);
      assert ps[..n][..i] == ps[..i];
    } else {
      i := n;
    }
  }

  /** Every tag of the old program is a piece of its own, and so the start of the same piece of the new one. */
  lemma {:induction false} TagPiece(env: Env, ps: seq<Piece>, to: Value, k: nat) returns (i: nat)
    requires Shaped(ps) && TagAt(env, Befores(ps), to, k)
    ensures i < |ps| && IsTagPiece(ps[i]) && k == Start(ps, i) && TagAt(env, Afters(ps), to, NewStart(ps, i))
  {
    i := PieceOf(ps, k);
    assert IsTagPiece(ps[i]);
    AftersAt(ps, i);
    var a, b := NewStart(ps, i), NewStart(ps, i + 1);
    assert Afters(ps)[a..b][0] == Afters(ps)[a];
  }

  lemma {:induction false} NewTagPiece(ps: seq<Piece>, k: nat) returns (i: nat)
    requires Shaped(ps) && k < |Afters(ps)| && IsTag(Afters(ps)[k])
    ensures i < |ps| && IsTagPiece(ps[i]) && k == NewStart(ps, i) && Start(ps, i) < |Befores(ps)|
    ensures Befores(ps)[Start(ps, i)] == Afters(ps)[k]
  {
    i := NewPieceOf(ps, k);
    assert IsTagPiece(ps[i]);
    BeforesAt(ps, i);
    var a, b := Start(ps, i), Start(ps, i + 1);
    assert Befores(ps)[a..b][0] == Befores(ps)[a];
  }

  lemma {:induction false} StartsAscend(ps: seq<Piece>, i: nat, j: nat)
    requires i < j <= |ps| && IsTagPiece(ps[i])
    ensures Start(ps, i) < Start(ps, j)
    decreases j
  {
    BeforesAt(ps, j - 1);
    if i < j - 1 { StartsAscend(ps, i, j - 1); }
  }

  /** The pass keeps tags unique and distinct. */
  lemma {:induction false} TagsUnique(ps: seq<Piece>)
    requires Shaped(ps) && UniqueTags(Befores(ps))
    ensures UniqueTags(Afters(ps))
  {
    var q := Afters(ps);
    forall i, j | 0 <= i < j < |q| && IsTag(q[i]) && IsTag(q[j]) ensures q[i].data != q[j].data {
      var a := NewTagPiece(ps, i);
      var b := NewTagPiece(ps, j);
      if a < b { StartsAscend(ps, a, b); } else if b < a { StartsAscend(ps, b, a); }
    }
  }

  lemma {:induction false} TagsKept(env: Env, ps: seq<Piece>)
    requires Shaped(ps) && UniqueTags(Befores(ps)) && DistinctTags(env, Befores(ps))
    ensures UniqueTags(Afters(ps)) && DistinctTags(env, Afters(ps))
  {
    TagsUnique(ps);
    var q := Afters(ps);
    forall i, j | 0 <= i < |q| && 0 <= j < |q| && IsTag(q[i]) && IsTag(q[j]) && env.tag(q[i].data) == env.tag(q[j].data)
      ensures q[i].data == q[j].data
    {
      var a := NewTagPiece(ps, i);
      var b := NewTagPiece(ps, j);
    }
  }

  // ----- a piece inside a program -----

  /** A halting run that enters a piece of code leaves it the way the piece says. */
  lemma {:induction false} RunsThrough(env: Env, items: seq<Item>, pc: nat, n: nat, s: State, fuel: nat,
      o: Outcome) returns (left: nat, k: nat)
    requires pc + n <= |items| && RunProgram(env, items, pc, s, fuel) == Some(o)
    ensures var f := RunSegment(env, items[pc..pc + n], s);
            && !f.Stuck? && (f.Halt? ==> f.outcome == o)
            && (f.Next? ==> left + n == fuel && RunProgram(env, items, pc + n, f.state, left) == Some(o))
            && (f.Jump? ==> left < fuel && TagAt(env, items, f.to, k) && RunProgram(env, items, k, f.after, left) == Some(o))
    decreases n
  {
    hide StepItem, TagAt;
    var seg := items[pc..pc + n];
    left, k := fuel, 0;
    if n > 0 {
      assert seg[..n - 1] == items[pc..pc + (n - 1)];
      left, k := RunsThrough(env, items, pc, n - 1, s, fuel, o);
      var f := RunSegment(env, seg[..n - 1], s);
      if f.Next? {
        assert seg[n - 1] == items[pc + n - 1];
        left, k := StepsThrough(env, items, pc + n - 1, f.state, left, o);
      }
    }
  }

  lemma {:induction false} StepsThrough(env: Env, items: seq<Item>, pc: nat, s: State, fuel: nat,
      o: Outcome) returns (left: nat, k: nat)
    requires pc < |items| && RunProgram(env, items, pc, s, fuel) == Some(o)
    ensures var f := StepItem(env, items[pc], s);
            && !f.Stuck? && (f.Halt? ==> f.outcome == o) && left + 1 == fuel
            && (f.Next? ==> RunProgram(env, items, pc + 1, f.state, left) == Some(o))
            && (f.Jump? ==> TagAt(env, items, f.to, k) && RunProgram(env, items, k, f.after, left) == Some(o))
  {
    hide StepItem, TagAt;
    left, k := fuel - 1, 0;
    var f := StepItem(env, items[pc], s);
    if f.Jump? {
      k :| TagAt(env, items, f.to, k) && StepProgram(env, items, pc, s) == At(k, f.after);
    }
  }

  /** What follows after a piece follows from its start. */
  lemma {:induction false} RunsFrom(env: Env, items: seq<Item>, pc: nat, n: nat, s: State, k: nat, o: Outcome)
    requires pc + n <= |items| && UniqueTags(items) && DistinctTags(env, items)
    requires var f := RunSegment(env, items[pc..pc + n], s);
             || f == Halt(o) || (f.Next? && HaltsWith(env, items, pc + n, f.state, o))
             || (f.Jump? && TagAt(env, items, f.to, k) && HaltsWith(env, items, k, f.after, o))
    ensures HaltsWith(env, items, pc, s, o)
    decreases n
  {
    hide StepItem, TagAt, HaltsWith, UniqueTags, DistinctTags;
    if n > 0 {
      var seg := items[pc..pc + n];
      assert seg[..n - 1] == items[pc..pc + (n - 1)] && seg[n - 1] == items[pc + n - 1];
      var f := RunSegment(env, seg[..n - 1], s);
      if f.Next? { StepsFrom(env, items, pc + n - 1, f.state, k, o); }
      RunsFrom(env, items, pc, n - 1, s, k, o);
    }
  }

  lemma {:induction false} StepsFrom(env: Env, items: seq<Item>, pc: nat, s: State, k: nat, o: Outcome)
    requires pc < |items| && UniqueTags(items) && DistinctTags(env, items)
    requires var f := StepItem(env, items[pc], s);
             || f == Halt(o) || (f.Next? && HaltsWith(env, items, pc + 1, f.state, o))
             || (f.Jump? && TagAt(env, items, f.to, k) && HaltsWith(env, items, k, f.after, o))
    ensures HaltsWith(env, items, pc, s, o)
  {
    hide StepItem, TagAt, HaltsWith, UniqueTags, DistinctTags;
    var f := StepItem(env, items[pc], s);
    if f.Halt? {
      LastStep(env, items, pc, s, o);
    } else if f.Next? {
      OneStep(env, items, pc, s, pc + 1, f.state, o);
    } else {
      JumpLands(env, items, pc, s, k);
      OneStep(env, items, pc, s, k, f.after, o);
    }
  }

  // ----- the whole program -----

  /** A linked program cut into pieces of which each keeps its behaviour. */
  ghost predicate PassOk(env: Env, ps: seq<Piece>) {
    && LinkedEnv(env) && Shaped(ps) && AllRefine(env, ps)
    && UniqueTags(Befores(ps)) && DistinctTags(env, Befores(ps))
  }

  /** From the start of a piece, the new program halts with the outcome of the old one. */
  lemma {:induction false} SimulateFrom(env: Env, ps: seq<Piece>, i: nat, s: State, fuel: nat, o: Outcome)
    requires PassOk(env, ps) && i <= |ps| && NumericState(s)
    requires RunProgram(env, Befores(ps), Start(ps, i), s, fuel) == Some(o)
    ensures HaltsWith(env, Afters(ps), NewStart(ps, i), s, o)
    decreases fuel, |ps| - i
  {
    hide PassOk, NumericState, HaltsWith, RunSegment, TagAt, IsTagPiece, NextTag;
    var old_, new_ := Befores(ps), Afters(ps);
    if i == |ps| {
      assert ps[..i] == ps;
      LastStep(env, new_, |new_|, s, o);
    } else {
      PassTags(env, ps);
      BeforesAt(ps, i);
      AftersAt(ps, i);
      var left, k := RunsThrough(env, old_, Start(ps, i), |ps[i].before|, s, fuel, o);
      var f, f' := RunSegment(env, ps[i].before, s), RunSegment(env, ps[i].after, s);
      PieceMatches(env, ps, i, s);
      var k' := 0;
      if f.Next? {
        SimulateFrom(env, ps, i + 1, f.state, left, o);
      } else if f.Jump? {
        var j := TagPiece(env, ps, f.to, k);
        k' := NewStart(ps, j);
        SimulateFrom(env, ps, j, f.after, left, o);
        if f' != f { NextTagPiece(env, ps, i, f.to, k, j); }
      }
      RunsFrom(env, new_, NewStart(ps, i), |ps[i].after|, s, k', o);
    }
  }

  lemma {:induction false} PassTags(env: Env, ps: seq<Piece>)
    requires PassOk(env, ps)
    ensures Shaped(ps) && UniqueTags(Befores(ps)) && DistinctTags(env, Befores(ps)) && UniqueTags(Afters(ps))
    ensures DistinctTags(env, Afters(ps))
  {
    TagsKept(env, ps);
  }

  lemma {:induction false} PieceMatches(env: Env, ps: seq<Piece>, i: nat, s: State)
    requires PassOk(env, ps) && i < |ps| && NumericState(s)
    ensures var f, f' := RunSegment(env, ps[i].before, s), RunSegment(env, ps[i].after, s);
            && (f.Stuck? || FlowMatches(env, NextTag(ps, i), f, f'))
            && (f.Next? ==> NumericState(f.state)) && (f.Jump? ==> NumericState(f.after))
  {
    hide NumericState, RunSegment, NextTag, UniqueTags, DistinctTags, Shaped, LinkedEnv;
    NumericSegment(env, ps[i].before, s);
    if !IsTagPiece(ps[i]) { assert Refines(env, NextTag(ps, i), ps[i].before, ps[i].after); }
  }

  /** The tag that follows a piece is where a jump to it lands. */
  lemma {:induction false} NextTagPiece(env: Env, ps: seq<Piece>, i: nat, to: Value, k: nat, j: nat)
    requires UniqueTags(Befores(ps)) && DistinctTags(env, Befores(ps)) && i < |ps| && NextTag(ps, i).Some?
    requires to == env.tag(NextTag(ps, i).value)
    requires TagAt(env, Befores(ps), to, k) && j < |ps| && IsTagPiece(ps[j]) && k == Start(ps, j)
    ensures j == i + 1
  {
    BeforesAt(ps, i + 1);
    var a, b := Start(ps, i + 1), Start(ps, i + 2);
    assert Befores(ps)[a..b][0] == Befores(ps)[a];
    TagIsUnique(env, Befores(ps), to, k, a);
    if j < i + 1 { StartsAscend(ps, j, i + 1); } else if i + 1 < j { StartsAscend(ps, i + 1, j); }
  }

  /** Every halting run of the old program is matched by the new one, with the same outcome. */
  lemma {:induction false} PassPreserves(env: Env, ps: seq<Piece>, s: State, o: Outcome)
    requires PassOk(env, ps) && NumericState(s) && HaltsWith(env, Befores(ps), 0, s, o)
    ensures HaltsWith(env, Afters(ps), 0, s, o)
  {
    hide PassOk, NumericState;
    var fuel: nat :| RunProgram(env, Befores(ps), 0, s, fuel) == Some(o);
    assert Start(ps, 0) == 0 && NewStart(ps, 0) == 0;
    SimulateFrom(env, ps, 0, s, fuel, o);
  }

  // ----- programs and passes -----

  /** Tags fit into four bytes, as the assembler demands. */
  ghost predicate ShortTags(env: Env) { forall t: Word :: env.tag(t).Num? && env.tag(t).word < 0x1_0000_0000 }

  /** A program ready to run once linked: each tag is placed once and tags are different code positions. */
  ghost predicate ProgramOk(env: Env, items: seq<Item>) {
    LinkedEnv(env) && ShortTags(env) && UniqueTags(items) && DistinctTags(env, items)
  }

  /** Every halting run of the first program is matched by the second one, with the same outcome. */
  ghost predicate Preserves(items: seq<Item>, result: seq<Item>) {
    && (UniqueTags(items) ==> UniqueTags(result))
    && forall env | ProgramOk(env, items) :: ProgramOk(env, result) && SameOutcomes(env, items, result)
  }

  ghost predicate SameOutcomes(env: Env, items: seq<Item>, result: seq<Item>) {
    forall s, o | NumericState(s) && HaltsWith(env, items, 0, s, o) :: HaltsWith(env, result, 0, s, o)
  }

  lemma {:induction false} PreservesTwice(first: seq<Item>, second: seq<Item>, third: seq<Item>)
    requires Preserves(first, second) && Preserves(second, third)
    ensures Preserves(first, third)
  {
    hide ProgramOk, NumericState, HaltsWith, UniqueTags;
    forall env | ProgramOk(env, first) ensures ProgramOk(env, third) && SameOutcomes(env, first, third) {
      assert SameOutcomes(env, first, second) && SameOutcomes(env, second, third);
    }
  }

  lemma {:induction false} PreservesNothing(items: seq<Item>)
    ensures Preserves(items, items)
  {
    hide ProgramOk, NumericState, HaltsWith;
  }

  /** Pieces that keep their behaviour in every linked program. */
  ghost predicate PiecesOk(ps: seq<Piece>) {
    Shaped(ps) && forall env | LinkedEnv(env) && ShortTags(env) :: AllRefine(env, ps)
  }

  lemma {:induction false} PiecesPreserve(ps: seq<Piece>)
    requires PiecesOk(ps)
    ensures Preserves(Befores(ps), Afters(ps))
  {
    hide AllRefine, LinkedEnv, ShortTags, UniqueTags, DistinctTags, NumericState, HaltsWith, Shaped, Befores, Afters;
    if UniqueTags(Befores(ps)) { TagsUnique(ps); }
    forall env | ProgramOk(env, Befores(ps))
      ensures ProgramOk(env, Afters(ps)) && SameOutcomes(env, Befores(ps), Afters(ps))
    {
      TagsKept(env, ps);
      forall s, o | NumericState(s) && HaltsWith(env, Befores(ps), 0, s, o)
        ensures HaltsWith(env, Afters(ps), 0, s, o)
      {
        PassPreserves(env, ps, s, o);
      }
    }
  }

  lemma {:induction false} RefinesBefore(env: Env, next: Option<Word>, before: seq<Item>, after: seq<Item>)
    requires Refines(env, None, before, after)
    ensures Refines(env, next, before, after)
  {
    hide RunSegment, NumericState;
  }

  /** More pieces after good pieces. */
  lemma {:induction false} AddPieces(ps: seq<Piece>, qs: seq<Piece>)
    requires PiecesOk(ps) && PiecesOk(qs)
    ensures PiecesOk(ps + qs)
  {
    hide LinkedEnv, ShortTags, Refines, NoTags, IsTagPiece;
    forall env | LinkedEnv(env) && ShortTags(env) ensures AllRefine(env, ps + qs) {
      assert AllRefine(env, ps) && AllRefine(env, qs);
      RefinesLonger(env, ps, qs);
    }
  }

  lemma {:induction false} RefinesLonger(env: Env, ps: seq<Piece>, qs: seq<Piece>)
    requires AllRefine(env, ps) && AllRefine(env, qs)
    ensures AllRefine(env, ps + qs)
  {
    hide Refines, IsTagPiece;
    var all := ps + qs;
    forall i | 0 <= i < |all| && !IsTagPiece(all[i])
      ensures Refines(env, NextTag(all, i), all[i].before, all[i].after)
    {
      if i < |ps| {
        assert Refines(env, NextTag(ps, i), ps[i].before, ps[i].after);
        if i + 1 == |ps| { RefinesBefore(env, NextTag(all, i), ps[i].before, ps[i].after); }
      } else {
        assert Refines(env, NextTag(qs, i - |ps|), qs[i - |ps|].before, qs[i - |ps|].after);
      }
    }
  }

  lemma {:induction false} BeforesConcat(ps: seq<Piece>, qs: seq<Piece>)
    ensures Befores(ps + qs) == Befores(ps) + Befores(qs)
    decreases |qs|
  {
    if |qs| == 0 {
      assert ps + qs == ps;
    } else {
      var n := |qs| - 1;
      assert (ps + qs)[..|ps + qs| - 1] == ps + qs[..n] && (ps + qs)[|ps + qs| - 1] == qs[n];
      calc {
        Befores(ps + qs);
        Befores(ps + qs[..n]) + qs[n].before;
        { BeforesConcat(ps, qs[..n]); }
        (Befores(ps) + Befores(qs[..n])) + qs[n].before;
        Befores(ps) + (Befores(qs[..n]) + qs[n].before);
        Befores(ps) + Befores(qs);
      }
    }
  }

  lemma {:induction false} AftersConcat(ps: seq<Piece>, qs: seq<Piece>)
    ensures Afters(ps + qs) == Afters(ps) + Afters(qs)
    decreases |qs|
  {
    if |qs| == 0 {
      assert ps + qs == ps;
    } else {
      var n := |qs| - 1;
      assert (ps + qs)[..|ps + qs| - 1] == ps + qs[..n] && (ps + qs)[|ps + qs| - 1] == qs[n];
      calc {
        Afters(ps + qs);
        Afters(ps + qs[..n]) + qs[n].after;
        { AftersConcat(ps, qs[..n]); }
        (Afters(ps) + Afters(qs[..n])) + qs[n].after;
        Afters(ps) + (Afters(qs[..n]) + qs[n].after);
        Afters(ps) + Afters(qs);
      }
    }
  }

  lemma {:induction false} OnePiece(p: Piece)
    ensures Befores([p]) == p.before && Afters([p]) == p.after
  {
    assert [p][..0] == [];
    assert Befores([]) == [] && Afters([]) == [];
  }

  lemma {:induction false} TwoPieces(p: Piece, q: Piece)
    ensures Befores([p, q]) == p.before + q.before && Afters([p, q]) == p.after + q.after
  {
    assert [p] + [q] == [p, q];
    OnePiece(p);
    OnePiece(q);
    BeforesConcat([p], [q]);
    AftersConcat([p], [q]);
  }

  lemma {:induction false} NoPieces()
    ensures PiecesOk([]) && Befores([]) == [] && Afters([]) == []
  {
  }
}
