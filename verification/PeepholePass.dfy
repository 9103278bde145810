/** One pass of the peephole optimiser and its repetition. */
module PeepholePass {
  import opened Words
  import opened Instructions
  import opened Items
  import opened Machine
  import opened Knowledge
  import opened Segments
  import opened Pieces
  import opened Peephole

  // ----- applying the first rule that fits -----

  datatype Method =
    | PushPopMethod | OpPopMethod | DoublePushMethod | DoubleSwapMethod | CommutativeSwapMethod | SwapComparisonMethod
    | IsZeroIsZeroJumpIMethod | JumpToNextMethod | UnreachableCodeMethod | TagConjunctionsMethod | TruthyAndMethod

  /** The order in which the methods are tried; whatever none of them takes is copied. */
  const ORDER: seq<Method> := [
    PushPopMethod, OpPopMethod, DoublePushMethod, DoubleSwapMethod, CommutativeSwapMethod, SwapComparisonMethod,
    IsZeroIsZeroJumpIMethod, JumpToNextMethod, UnreachableCodeMethod, TagConjunctionsMethod, TruthyAndMethod]

  /** How many items a method takes and what it emits for them. */
  datatype Applied = Applied(consumed: nat, out: seq<Item>)

  function Window(m: Method): nat {
    match m
    case IsZeroIsZeroJumpIMethod => 4
    case JumpToNextMethod => 3
    case TagConjunctionsMethod => 3
    case TruthyAndMethod => 3
    case _ => 2
  }

  /** The rules with a fixed window. */
  function ApplySimple(m: Method, items: seq<Item>, i: nat): Option<seq<Item>>
    requires i + Window(m) <= |items| && m != UnreachableCodeMethod
  {
    match m
    case PushPopMethod => PushPop(items[i], items[i + 1])
    case OpPopMethod => OpPop(items[i], items[i + 1])
    case DoublePushMethod => DoublePush(items[i], items[i + 1])
    case DoubleSwapMethod => DoubleSwap(items[i], items[i + 1])
    case CommutativeSwapMethod => CommutativeSwap(items[i], items[i + 1])
    case SwapComparisonMethod => SwapComparison(items[i], items[i + 1])
    case IsZeroIsZeroJumpIMethod => IsZeroIsZeroJumpI(items[i], items[i + 1], items[i + 2], items[i + 3])
    case JumpToNextMethod => JumpToNext(items[i], items[i + 1], items[i + 2])
    case TagConjunctionsMethod => TagConjunctions(items[i], items[i + 1], items[i + 2])
    case TruthyAndMethod => TruthyAnd(items[i], items[i + 1], items[i + 2])
  }

  /** The first tag from a position on. */
  function TagFrom(items: seq<Item>, i: nat): (k: nat)
    requires i <= |items|
    ensures i <= k <= |items| && (k < |items| ==> IsTag(items[k])) && forall j :: i <= j < k ==> !IsTag(items[j])
    decreases |items| - i
  {
    if i == |items| || IsTag(items[i]) then i else TagFrom(items, i + 1)
  }

  function Unreachable(items: seq<Item>, i: nat): Option<Applied>
    requires i < |items|
  {
    var k := TagFrom(items, i + 1);
    if EndsFlow(items[i]) && k > i + 1 then Some(Applied(k - i, [items[i]])) else None
  }

  /** Removes everything after a jump or halt until the next tag. */
  method UnreachableCode(items: seq<Item>, at: nat) returns (r: Option<Applied>)
    requires at < |items|
    ensures r == Unreachable(items, at)
  {
    if !EndsFlow(items[at]) { return None; }
    var i := 1;
    while at + i < |items| && !IsTag(items[at + i])
      invariant 1 <= i && at + i <= |items| && TagFrom(items, at + i) == TagFrom(items, at + 1)
    {
      i := i + 1;
    }
    r := if i > 1 then Some(Applied(i, [items[at]])) else None;
  }

  function Try(m: Method, items: seq<Item>, i: nat): Option<Applied>
    requires i < |items|
  {
    if m == UnreachableCodeMethod then Unreachable(items, i)
    else if i + Window(m) <= |items| && ApplySimple(m, items, i).Some? then Some(Applied(Window(m), ApplySimple(m, items, i).value))
    else None
  }

  /** The first method in the list that applies, or a copy of one item. */
  function FirstApplied(methods: seq<Method>, items: seq<Item>, i: nat): Applied
    requires i < |items|
    decreases |methods|
  {
    if |methods| == 0 then Applied(1, [items[i]])
    else if Try(methods[0], items, i).Some? then Try(methods[0], items, i).value
    else FirstApplied(methods[1..], items, i)
  }

  /** Tries the methods in order. */
  method ApplyMethods(items: seq<Item>, i: nat) returns (a: Applied)
    requires i < |items|
    ensures a == FirstApplied(ORDER, items, i)
  {
    hide Try;
    var k := 0;
    while k < |ORDER|
      invariant 0 <= k <= |ORDER| && FirstApplied(ORDER, items, i) == FirstApplied(ORDER[k..], items, i)
    {
      var r := TryMethod(ORDER[k], items, i);
      if r.Some? { return r.value; }
      assert ORDER[k..][1..] == ORDER[k + 1..];
      k := k + 1;
    }
    a := Applied(1, [items[i]]);
  }

  method TryMethod(m: Method, items: seq<Item>, i: nat) returns (r: Option<Applied>)
    requires i < |items|
    ensures r == Try(m, items, i)
  {
    if m == UnreachableCodeMethod {
      r := UnreachableCode(items, i);
    } else if i + Window(m) <= |items| && ApplySimple(m, items, i).Some? {
      r := Some(Applied(Window(m), ApplySimple(m, items, i).value));
    } else {
      r := None;
    }
  }

  // ----- one application keeps the behaviour -----

  /** The pieces of one application; a jump to the following tag leaves that tag in place. */
  function StepPieces(items: seq<Item>, i: nat, a: Applied): seq<Piece>
    requires i + a.consumed <= |items|
  {
    if a.consumed == 3 && JumpToNext(items[i], items[i + 1], items[i + 2]) == Some(a.out) && |a.out| > 0
    then [Piece([items[i], items[i + 1]], a.out[..|a.out| - 1]), Piece([items[i + 2]], [items[i + 2]])]
    else [Piece(items[i..i + a.consumed], a.out)]
  }

  /** An application behaves and covers its window. */
  ghost predicate StepOk(items: seq<Item>, i: nat, a: Applied) {
    && 0 < a.consumed && i + a.consumed <= |items|
    && var ps := StepPieces(items, i, a);
    && PiecesOk(ps) && Befores(ps) == items[i..i + a.consumed] && Afters(ps) == a.out
  }

  lemma {:induction false} SinglePiece(before: seq<Item>, after: seq<Item>)
    requires NoTags(before) && NoTags(after)
    requires forall env | LinkedEnv(env) && ShortTags(env) :: Refines(env, None, before, after)
    ensures PiecesOk([Piece(before, after)]) && Befores([Piece(before, after)]) == before
    ensures Afters([Piece(before, after)]) == after
  {
    hide LinkedEnv, ShortTags, Refines;
    OnePiece(Piece(before, after));
  }

  lemma {:induction false} SimpleRefines(m: Method, items: seq<Item>, i: nat, env: Env)
    requires i + Window(m) <= |items| && m != UnreachableCodeMethod && m != JumpToNextMethod
    requires ApplySimple(m, items, i).Some?
    requires LinkedEnv(env) && ShortTags(env)
    ensures Refines(env, None, items[i..i + Window(m)], ApplySimple(m, items, i).value)
  {
    hide LinkedEnv, ShortTags, Refines;
    var a, b := items[i], items[i + 1];
    if Window(m) == 2 {
      assert items[i..i + 2] == [a, b];
      PairRefines(m, a, b, env);
    } else if Window(m) == 3 {
      assert items[i..i + 3] == [a, b, items[i + 2]];
      if m == TagConjunctionsMethod { TagConjunctionsRefines(env, a, b, items[i + 2]); } else { TruthyAndRefines(env, a, b, items[i + 2]); }
    } else {
      assert items[i..i + 4] == [a, b, items[i + 2], items[i + 3]];
      IsZeroIsZeroJumpIRefines(env, a, b, items[i + 2], items[i + 3]);
    }
  }

  lemma {:induction false} PairRefines(m: Method, a: Item, b: Item, env: Env)
    requires Window(m) == 2 && m != UnreachableCodeMethod && ApplySimple(m, [a, b], 0).Some? && LinkedEnv(env)
    ensures Refines(env, None, [a, b], ApplySimple(m, [a, b], 0).value)
  {
    hide LinkedEnv, Refines;
    match m
    case PushPopMethod => PushPopRefines(env, a, b);
    case OpPopMethod => OpPopRefines(env, a, b);
    case DoublePushMethod => DoublePushRefines(env, a, b);
    case DoubleSwapMethod => DoubleSwapRefines(env, a, b);
    case CommutativeSwapMethod => CommutativeSwapRefines(env, a, b);
    case SwapComparisonMethod => SwapComparisonRefines(env, a, b);
  }

  lemma {:induction false} SimpleHasNoTags(m: Method, items: seq<Item>, i: nat)
    requires i + Window(m) <= |items| && m != UnreachableCodeMethod && m != JumpToNextMethod
    requires ApplySimple(m, items, i).Some?
    ensures NoTags(items[i..i + Window(m)]) && NoTags(ApplySimple(m, items, i).value)
  {
    hide InfoOf, IsCommutative;
  }

  lemma {:induction false} JumpToNextOk(items: seq<Item>, i: nat, out: seq<Item>)
    requires i + 3 <= |items| && JumpToNext(items[i], items[i + 1], items[i + 2]) == Some(out)
    ensures StepOk(items, i, Applied(3, out))
  {
    hide LinkedEnv, ShortTags, Refines, Befores, Afters, PiecesOk;
    var push, tag := items[i], items[i + 2];
    var jump := if items[i + 1] == Operation(JUMPI) then [Operation(POP)] else [];
    assert out == jump + [tag];
    assert out[..|out| - 1] == jump;
    assert items[i..i + 3] == [push, items[i + 1]] + [tag];
    forall env | LinkedEnv(env) && ShortTags(env) ensures Refines(env, Some(tag.data), [push, items[i + 1]], jump) {
      JumpToNextRefines(env, push, items[i + 1], tag);
    }
    PieceThenTag([push, items[i + 1]], jump, tag);
  }

  lemma {:induction false} PieceThenTag(before: seq<Item>, after: seq<Item>, tag: Item)
    requires NoTags(before) && NoTags(after) && IsTag(tag)
    requires forall env | LinkedEnv(env) && ShortTags(env) :: Refines(env, Some(tag.data), before, after)
    ensures var ps := [Piece(before, after), Piece([tag], [tag])];
            PiecesOk(ps) && Befores(ps) == before + [tag] && Afters(ps) == after + [tag]
  {
    hide LinkedEnv, ShortTags, Refines, Befores, Afters;
    var ps := [Piece(before, after), Piece([tag], [tag])];
    TwoPieces(ps[0], ps[1]);
    forall env | LinkedEnv(env) && ShortTags(env) ensures AllRefine(env, ps) {
      assert NextTag(ps, 0) == Some(tag.data);
    }
  }

  lemma {:induction false} TryOk(m: Method, items: seq<Item>, i: nat)
    requires i < |items| && Try(m, items, i).Some?
    ensures StepOk(items, i, Try(m, items, i).value)
  {
    hide LinkedEnv, ShortTags, Refines, Befores, Afters, PiecesOk;
    var a := Try(m, items, i).value;
    if a.consumed == 3 && JumpToNext(items[i], items[i + 1], items[i + 2]) == Some(a.out) {
      JumpToNextOk(items, i, a.out);
    } else if m == UnreachableCodeMethod {
      var window := items[i..i + a.consumed];
      assert window[0] == items[i];
      forall env | LinkedEnv(env) && ShortTags(env)
        ensures Refines(env, None, window, a.out)
      { UnreachableRefines(env, window); }
      SinglePiece(window, a.out);
    } else {
      SimpleHasNoTags(m, items, i);
      forall env | LinkedEnv(env) && ShortTags(env)
        ensures Refines(env, None, items[i..i + a.consumed], a.out)
      { SimpleRefines(m, items, i, env); }
      SinglePiece(items[i..i + a.consumed], a.out);
    }
  }

  lemma {:induction false} CopyOk(items: seq<Item>, i: nat)
    requires i < |items|
    ensures StepOk(items, i, Applied(1, [items[i]]))
  {
    hide LinkedEnv, ShortTags, RunSegment, NumericState;
    assert items[i..i + 1] == [items[i]];
    OnePiece(Piece([items[i]], [items[i]]));
  }

  lemma {:induction false} FirstAppliedOk(methods: seq<Method>, items: seq<Item>, i: nat)
    requires i < |items|
    ensures StepOk(items, i, FirstApplied(methods, items, i))
    decreases |methods|
  {
    hide StepOk, Try;
    if |methods| == 0 {
      CopyOk(items, i);
    } else if Try(methods[0], items, i).Some? {
      TryOk(methods[0], items, i);
    } else {
      FirstAppliedOk(methods[1..], items, i);
    }
  }

  // ----- no method brings in a tag -----

  lemma {:induction false} PairTags(m: Method, a: Item, b: Item)
    requires Window(m) == 2 && m != UnreachableCodeMethod && ApplySimple(m, [a, b], 0).Some?
    ensures NoNewTags([a, b], ApplySimple(m, [a, b], 0).value)
  {
    hide InfoOf, IsCommutative;
  }

  lemma {:induction false} TryTags(m: Method, items: seq<Item>, i: nat)
    requires i < |items| && Try(m, items, i).Some?
    ensures var a := Try(m, items, i).value; i + a.consumed <= |items| && NoNewTags(items[i..i + a.consumed], a.out)
  {
    hide InfoOf, IsCommutative;
    var a := Try(m, items, i).value;
    var window := items[i..i + a.consumed];
    if m == UnreachableCodeMethod {
      assert window[0] == items[i];
    } else if Window(m) == 2 {
      assert window == [items[i], items[i + 1]];
      PairTags(m, items[i], items[i + 1]);
    } else if Window(m) == 3 {
      assert window == [items[i], items[i + 1], items[i + 2]];
    } else {
      assert window == [items[i], items[i + 1], items[i + 2], items[i + 3]];
    }
  }

  lemma {:induction false} FirstAppliedTags(methods: seq<Method>, items: seq<Item>, i: nat)
    requires i < |items|
    ensures var a := FirstApplied(methods, items, i);
            i + a.consumed <= |items| && NoNewTags(items[i..i + a.consumed], a.out)
    decreases |methods|
  {
    hide Try;
    if |methods| == 0 {
      assert items[i..i + 1] == [items[i]];
    } else if Try(methods[0], items, i).Some? {
      TryTags(methods[0], items, i);
    } else {
      FirstAppliedTags(methods[1..], items, i);
    }
  }

  // ----- what every pass lowers -----

  function NonPops(items: seq<Item>): nat
    decreases |items|
  {
    if |items| == 0 then 0 else NonPops(items[..|items| - 1]) + (if items[|items| - 1] == Operation(POP) then 0 else 1)
  }

  function Pushes(items: seq<Item>): nat
    decreases |items|
  {
    if |items| == 0 then 0 else Pushes(items[..|items| - 1]) + (if IsPushWord(items[|items| - 1]) then 1 else 0)
  }

  lemma {:induction false} CountsConcat(a: seq<Item>, b: seq<Item>)
    ensures NonPops(a + b) == NonPops(a) + NonPops(b) && Pushes(a + b) == Pushes(a) + Pushes(b)
    decreases |b|
  {
    if |b| == 0 {
      assert a + b == a;
    } else {
      CountsConcat(a, b[..|b| - 1]);
      assert (a + b)[..|a + b| - 1] == a + b[..|b| - 1];
    }
  }

  /** Fewer items other than POP; or as many and fewer pushed words; or as many of both and fewer items. */
  predicate Lower(a: seq<Item>, b: seq<Item>) {
    || NonPops(a) < NonPops(b)
    || (NonPops(a) == NonPops(b) && Pushes(a) < Pushes(b))
    || (NonPops(a) == NonPops(b) && Pushes(a) == Pushes(b) && |a| < |b|)
  }

  lemma {:induction false} LowerConcat(a: seq<Item>, b: seq<Item>, x: seq<Item>, y: seq<Item>)
    requires (a == b || Lower(a, b)) && (x == y || Lower(x, y))
    ensures a + x == b + y || Lower(a + x, b + y)
  {
    CountsConcat(a, x);
    CountsConcat(b, y);
  }

  lemma {:induction false} CountOne(a: Item)
    ensures NonPops([a]) == (if a == Operation(POP) then 0 else 1) && Pushes([a]) == (if IsPushWord(a) then 1 else 0)
    ensures NonPops([]) == 0 && Pushes([]) == 0
  {
    assert [a][..0] == [];
  }

  lemma {:induction false} CountTwo(a: Item, b: Item)
    ensures NonPops([a, b]) == NonPops([a]) + NonPops([b]) && Pushes([a, b]) == Pushes([a]) + Pushes([b])
  {
    assert [a] + [b] == [a, b];
    CountsConcat([a], [b]);
  }

  lemma {:induction false} CountPops(n: nat)
    ensures NonPops(Pops(n)) == 0 && Pushes(Pops(n)) == 0
  {
    if n > 0 {
      CountPops(n - 1);
      assert Pops(n)[..n - 1] == Pops(n - 1);
    }
  }

  lemma {:induction false} PairLowers(m: Method, a: Item, b: Item)
    requires Window(m) == 2 && m != UnreachableCodeMethod && ApplySimple(m, [a, b], 0).Some?
    ensures Lower(ApplySimple(m, [a, b], 0).value, [a, b])
  {
    hide InfoOf, NonPops, Pushes, IsCommutative;
    CountTwo(a, b);
    CountOne(a);
    CountOne(b);
    match m
    case PushPopMethod =>
    case OpPopMethod => CountPops(InfoOf(a.op).args); PopHasNoResult();
    case DoublePushMethod => CountTwo(a, Operation(DUP1)); CountOne(Operation(DUP1));
    case DoubleSwapMethod =>
    case CommutativeSwapMethod =>
    case SwapComparisonMethod => CountOne(Operation(Mirrored(b.op)));
  }

  lemma {:induction false} PopHasNoResult()
    ensures InfoOf(POP).ret == 0
  {
  }

  lemma {:induction false} TripleLowers(m: Method, a: Item, b: Item, c: Item)
    requires Window(m) == 3 && ApplySimple(m, [a, b, c], 0).Some?
    ensures Lower(ApplySimple(m, [a, b, c], 0).value, [a, b, c])
  {
    hide NonPops, Pushes;
    CountTwo(a, b);
    CountOne(a);
    CountOne(b);
    CountOne(c);
    assert [a, b] + [c] == [a, b, c];
    CountsConcat([a, b], [c]);
    CountOne(Operation(POP));
    CountTwo(Operation(POP), c);
  }

  lemma {:induction false} FourLower(a: Item, b: Item, c: Item, d: Item)
    requires IsZeroIsZeroJumpI(a, b, c, d).Some?
    ensures Lower([c, d], [a, b, c, d])
  {
    hide NonPops, Pushes;
    CountTwo(a, b);
    CountOne(a);
    CountOne(b);
    assert [a, b] + [c, d] == [a, b, c, d];
    CountsConcat([a, b], [c, d]);
  }

  lemma {:induction false} UnreachableLowers(items: seq<Item>)
    requires |items| > 1
    ensures Lower([items[0]], items)
  {
    assert items == [items[0]] + items[1..];
    CountsConcat([items[0]], items[1..]);
  }

  /** Every method but copying lowers the measure. */
  lemma {:induction false} TryLowers(m: Method, items: seq<Item>, i: nat)
    requires i < |items| && Try(m, items, i).Some?
    ensures var a := Try(m, items, i).value; i + a.consumed <= |items| && Lower(a.out, items[i..i + a.consumed])
  {
    hide Lower;
    var a := Try(m, items, i).value;
    var window := items[i..i + a.consumed];
    if m == UnreachableCodeMethod {
      UnreachableLowers(window);
    } else if Window(m) == 2 {
      assert window == [items[i], items[i + 1]];
      PairLowers(m, items[i], items[i + 1]);
    } else if Window(m) == 3 {
      assert window == [items[i], items[i + 1], items[i + 2]];
      TripleLowers(m, items[i], items[i + 1], items[i + 2]);
    } else {
      assert window == [items[i], items[i + 1], items[i + 2], items[i + 3]];
      FourLower(items[i], items[i + 1], items[i + 2], items[i + 3]);
    }
  }

  lemma {:induction false} FirstAppliedLowers(methods: seq<Method>, items: seq<Item>, i: nat)
    requires i < |items|
    ensures var a := FirstApplied(methods, items, i);
            i + a.consumed <= |items| && (a.out == items[i..i + a.consumed] || Lower(a.out, items[i..i + a.consumed]))
    decreases |methods|
  {
    hide Lower, Try;
    if |methods| == 0 {
    } else if Try(methods[0], items, i).Some? {
      TryLowers(methods[0], items, i);
    } else {
      FirstAppliedLowers(methods[1..], items, i);
    }
  }

  // ----- a pass -----

  function NumberOfPops(items: seq<Item>): nat
    decreases |items|
  {
    if |items| == 0 then 0 else NumberOfPops(items[..|items| - 1]) + (if items[|items| - 1] == Operation(POP) then 1 else 0)
  }

  /** Total size; None if some item cannot be assembled. */
  function TotalBytes(items: seq<Item>): Option<nat>
    decreases |items|
  {
    if |items| == 0 then Some(0)
    else
      var rest, last := TotalBytes(items[..|items| - 1]), ItemBytes(items[|items| - 1], 3);
      if rest.Some? && last.Some? then Some(rest.value + last.value) else None
  }

  /** Exceptions stop the optimiser. */
  datatype PassResult = Changed(items: seq<Item>) | Unchanged | Exception

  /** The rewritten program. */
  method Rewrite(items: seq<Item>) returns (out: seq<Item>)
    ensures Preserves(items, out)
    ensures out == items || Lower(out, items)
    ensures NoNewTags(items, out)
  {
    hide Preserves, Lower, PiecesOk, Befores, Afters, StepPieces, FirstApplied, NoNewTags;
    NothingNew([]);
    out := [];
    var i := 0;
    ghost var ps: seq<Piece> := [];
    NoPieces();
    while i < |items|
      invariant 0 <= i <= |items| && PiecesOk(ps) && Befores(ps) == items[..i] && Afters(ps) == out
      invariant out == items[..i] || Lower(out, items[..i])
      invariant NoNewTags(items[..i], out)
    {
      var a := ApplyMethods(items, i);
      FirstAppliedOk(ORDER, items, i);
      FirstAppliedLowers(ORDER, items, i);
      FirstAppliedTags(ORDER, items, i);
      ghost var qs := StepPieces(items, i, a);
      AddPieces(ps, qs);
      BeforesConcat(ps, qs);
      AftersConcat(ps, qs);
      NoNewTagsConcat(items[..i], out, items[i..i + a.consumed], a.out);
      LowerConcat(out, items[..i], a.out, items[i..i + a.consumed]);
      assert items[..i] + items[i..i + a.consumed] == items[..i + a.consumed];
      ps := ps + qs;
      out := out + a.out;
      i := i + a.consumed;
    }
    assert items[..i] == items;
    PiecesPreserve(ps);
  }

  /** One pass: accepted if it saves items, or bytes, or turns other items into POPs. */
  method Optimise(items: seq<Item>) returns (r: PassResult)
    ensures r.Changed? ==> Preserves(items, r.items) && Lower(r.items, items) && |r.items| <= |items|
    ensures r.Changed? ==> NoNewTags(items, r.items)
  {
    hide Preserves, Lower, TotalBytes, NumberOfPops, NoNewTags;
    var out := Rewrite(items);
    var better := |out| < |items|;
    if |out| == |items| {
      var old_, new_ := TotalBytes(items), TotalBytes(out);
      if old_.None? || new_.None? { return Exception; }
      better := new_.value < old_.value || NumberOfPops(out) > NumberOfPops(items);
    }
    r := if better then Changed(out) else Unchanged;
  }

  /** Dropping an operation with its operands can make the code longer, and still lowers the measure. */
  lemma {:induction false} DroppingCanLengthen()
    ensures var window, out := [Operation(ADDMOD), Operation(POP)], OpPop(Operation(ADDMOD), Operation(POP));
            out == Some([Operation(POP), Operation(POP), Operation(POP)]) && |out.value| > |window| && Lower(out.value, window)
  {
    var p := Operation(POP);
    assert Pops(3) == [p, p, p];
    assert [p, p, p][..2] == [p, p] && [p, p][..1] == [p] && [Operation(ADDMOD), p][..1] == [Operation(ADDMOD)];
  }

  /** Repeats the pass until it changes nothing. No counter is needed to stop: every accepted pass
      lowers the measure. */
  method OptimiseFully(items: seq<Item>) returns (result: seq<Item>, ok: bool)
    ensures ok ==> Preserves(items, result) && (result == items || (Lower(result, items) && |result| <= |items|))
    ensures ok ==> NoNewTags(items, result)
  {
    hide Preserves;
    result, ok := items, true;
    PreservesNothing(items);
    var again := true;
    while again
      invariant Preserves(items, result) && (result == items || (Lower(result, items) && |result| <= |items|))
      invariant NoNewTags(items, result)
      decreases NonPops(result), Pushes(result), |result|, again
    {
      var r := Optimise(result);
      if r.Exception? { return items, false; }
      again := r.Changed?;
      if again {
        PreservesTwice(items, result, r.items);
        result := r.items;
      }
    }
  }
}
