/** Equivalence classes of expressions and what they stand for. */
module Expressions {
  import opened Words
  import opened Instructions
  import opened Arithmetic
  import opened Items
  import opened Rules
  import opened RulesSound

  /** Everything the value of an expression can depend on: the meaning of the
      instructions in the current environment, the initial stack (by height),
      link-time data, and the outcome of each sequenced access to memory or storage. */
  datatype Valuation = Valuation(
    apply: Reader,
    unknown: int -> Word,
    data: (Kind, Word) -> Word,
    sequenced: (Opcode, seq<Word>, nat) -> Word)

  /** Instructions mean what the EVM says; addresses have 160 bits. */
  ghost predicate Sensible(v: Valuation) {
    && ReadsAddresses(v.apply)
    && forall op: Opcode, args: seq<Word> {:trigger v.apply(op, args), Arith(op, args)}
         | IsArithmetic(op) && |args| == InfoOf(op).args :: v.apply(op, args) == Arith(op, args)
  }

  predicate IsSequenced(op: Opcode) { op == SLOAD || op == MLOAD || op == SSTORE || op == MSTORE }

  predicate AllBelow(args: seq<Id>, bound: nat) { forall i :: 0 <= i < |args| ==> args[i] < bound }

  /** Expressions that can occur inside a block: arity as in the instruction table, sequence
      numbers exactly on memory and storage accesses, every other operation free of effects. */
  predicate ExprOk(e: Expr, bound: nat) {
    && AllBelow(e.arguments, bound)
    && |e.arguments| == Arguments(e.item)
    && (if e.item.Operation? then (e.sequenceNumber != 0 <==> IsSequenced(e.item.op)) else e.sequenceNumber == 0)
    && (e.item.Operation? ==> IsPure(e.item.op) || IsSequenced(e.item.op))
    && !IsTag(e.item)
  }

  predicate WellFormed(reps: seq<Expr>) {
    forall i :: 0 <= i < |reps| ==> ExprOk(reps[i], i)
  }

  function EvalExpr(v: Valuation, e: Expr, args: seq<Word>): Word {
    match e.item
    case Undefined(h) => v.unknown(h)
    case Data(kind, d) => if kind == Push then d else v.data(kind, d)
    case Operation(op) =>
      if e.sequenceNumber != 0 then v.sequenced(op, args, e.sequenceNumber) else v.apply(op, args)
  }

  /** The value of a class: its arguments are older classes. */
  ghost function Eval(v: Valuation, reps: seq<Expr>, id: Id): Word
    requires WellFormed(reps) && id < |reps|
    decreases id
  {
    var args := reps[id].arguments;
    assert ExprOk(reps[id], id);
    EvalExpr(v, reps[id], seq(|args|, i requires 0 <= i < |args| => Eval(v, reps, args[i])))
  }

  ghost function ArgValues(v: Valuation, reps: seq<Expr>, args: seq<Id>): (r: seq<Word>)
    requires WellFormed(reps) && AllBelow(args, |reps|)
    ensures |r| == |args|
    ensures forall i :: 0 <= i < |args| ==> r[i] == Eval(v, reps, args[i])
  {
    seq(|args|, i requires 0 <= i < |args| => Eval(v, reps, args[i]))
  }

  lemma {:induction false} EvalUnfold(v: Valuation, reps: seq<Expr>, id: Id)
    requires WellFormed(reps) && id < |reps|
    ensures ExprOk(reps[id], id)
    ensures Eval(v, reps, id) == EvalExpr(v, reps[id], ArgValues(v, reps, reps[id].arguments))
  {
    assert ExprOk(reps[id], id);
    var args := reps[id].arguments;
    assert seq(|args|, i requires 0 <= i < |args| => Eval(v, reps, args[i])) == ArgValues(v, reps, args);
  }

  /** Adding classes does not change the values of the old ones. */
  lemma {:induction false} EvalPrefix(v: Valuation, reps: seq<Expr>, more: seq<Expr>, id: Id)
    requires WellFormed(reps) && WellFormed(more) && reps <= more && id < |reps|
    ensures Eval(v, more, id) == Eval(v, reps, id)
    decreases id
  {
    EvalUnfold(v, reps, id);
    EvalUnfold(v, more, id);
    var args := reps[id].arguments;
    forall i | 0 <= i < |args| ensures Eval(v, more, args[i]) == Eval(v, reps, args[i]) {
      EvalPrefix(v, reps, more, args[i]);
    }
    assert ArgValues(v, more, args) == ArgValues(v, reps, args);
  }

  lemma {:induction false} ArgValuesPrefix(v: Valuation, reps: seq<Expr>, more: seq<Expr>, args: seq<Id>)
    requires WellFormed(reps) && WellFormed(more) && reps <= more && AllBelow(args, |reps|)
    ensures AllBelow(args, |more|)
    ensures ArgValues(v, more, args) == ArgValues(v, reps, args)
  {
    forall i | 0 <= i < |args| ensures Eval(v, more, args[i]) == Eval(v, reps, args[i]) {
      EvalPrefix(v, reps, more, args[i]);
    }
  }

  // ----- matching is sound -----

  /** Match groups name existing classes; the constant groups name pushed words. */
  predicate GroupsOk(g: Groups, reps: seq<Expr>) {
    forall n <- g :: g[n].id < |reps| && (1 <= n <= 3 ==> reps[g[n].id].item == PushWord(g[n].data))
  }

  predicate Extends(g: Groups, h: Groups) { forall n <- g :: n in h && h[n] == g[n] }

  ghost function GroupValue(v: Valuation, reps: seq<Expr>, g: Groups, n: nat): Word
    requires WellFormed(reps) && GroupsOk(g, reps)
  {
    if n in g then Eval(v, reps, g[n].id) else 0
  }

  ghost function PatternValue(v: Valuation, reps: seq<Expr>, g: Groups, p: Pattern): Word
    requires WellFormed(reps) && GroupsOk(g, reps)
    decreases p
  {
    match p
    case Any(n) => GroupValue(v, reps, g, n)
    case Constant(n) => ConstantOf(g, n)
    case Literal(w) => w
    case Apply0(op) => v.apply(op, [])
    case Apply1(op, q) => v.apply(op, [PatternValue(v, reps, g, q)])
    case Apply2(op, q, r) => v.apply(op, [PatternValue(v, reps, g, q), PatternValue(v, reps, g, r)])
    case Apply3(op, q, r, s) =>
      v.apply(op, [PatternValue(v, reps, g, q), PatternValue(v, reps, g, r), PatternValue(v, reps, g, s)])
  }

  lemma {:induction false} PatternValueIsEval(v: Valuation, reps: seq<Expr>, g: Groups, p: Pattern)
    requires WellFormed(reps) && GroupsOk(g, reps) && PatternOk(p) && Sensible(v)
    ensures PatternValue(v, reps, g, p)
         == EvalPattern(p, v.apply, ConstantsOf(g), GroupValue(v, reps, g, 4), GroupValue(v, reps, g, 5))
  {
    match p
    case Any(_) =>
    case Constant(_) =>
    case Literal(_) =>
    case Apply0(_) =>
    case Apply1(op, q) =>
      PatternValueIsEval(v, reps, g, q);
      ApplyIsEvalOp(v, op, [PatternValue(v, reps, g, q)]);
    case Apply2(op, q, r) =>
      PatternValueIsEval(v, reps, g, q);
      PatternValueIsEval(v, reps, g, r);
      ApplyIsEvalOp(v, op, [PatternValue(v, reps, g, q), PatternValue(v, reps, g, r)]);
    case Apply3(op, q, r, s) =>
      PatternValueIsEval(v, reps, g, q);
      PatternValueIsEval(v, reps, g, r);
      PatternValueIsEval(v, reps, g, s);
      ApplyIsEvalOp(v, op, [PatternValue(v, reps, g, q), PatternValue(v, reps, g, r), PatternValue(v, reps, g, s)]);
  }

  lemma {:induction false} ApplyIsEvalOp(v: Valuation, op: Opcode, args: seq<Word>)
    requires Sensible(v) && IsPure(op) && |args| == InfoOf(op).args
    ensures v.apply(op, args) == EvalOp(v.apply, op, args)
  {
    if IsArithmetic(op) {
      assert v.apply(op, args) == Arith(op, args);
    } else {
      assert |args| == 1 ==> args == [args[0]];
    }
  }

  /** Under the groups h, and under any groups that extend them, the pattern has the value of class id. */
  ghost predicate StandsFor(p: Pattern, reps: seq<Expr>, h: Groups, id: Id)
    requires WellFormed(reps) && id < |reps|
  {
    forall v, k: Groups | GroupsOk(k, reps) && Extends(h, k) :: PatternValue(v, reps, k, p) == Eval(v, reps, id)
  }

  ghost predicate AppliesTo(p: Pattern, op: Opcode, reps: seq<Expr>, h: Groups, args: seq<Id>)
    requires WellFormed(reps) && AllBelow(args, |reps|)
  {
    forall v, k: Groups | GroupsOk(k, reps) && Extends(h, k) ::
      PatternValue(v, reps, k, p) == v.apply(op, ArgValues(v, reps, args))
  }

  lemma {:induction false} StandsForLonger(p: Pattern, reps: seq<Expr>, g: Groups, h: Groups, id: Id)
    requires WellFormed(reps) && id < |reps| && StandsFor(p, reps, g, id) && Extends(g, h)
    ensures StandsFor(p, reps, h, id)
  {
    forall k: Groups | GroupsOk(k, reps) && Extends(h, k) ensures Extends(g, k) { }
  }

  /** A pattern that matched a class has the value of that class. */
  lemma {:induction false} MatchClassSound(p: Pattern, id: Id, reps: seq<Expr>, g: Groups)
    requires WellFormed(reps) && GroupsOk(g, reps) && PatternOk(p)
    requires MatchClass(p, id, reps, g).Some?
    ensures var h := MatchClass(p, id, reps, g).value;
            GroupsOk(h, reps) && Extends(g, h) && StandsFor(p, reps, h, id)
    decreases p, 1
  {
    var h := MatchClass(p, id, reps, g).value;
    assert ExprOk(reps[id], id);
    if p.Any? || p.Constant? {
    } else {
      if !p.Literal? { MatchArgumentsSound(p, reps[id].arguments, reps, g); }
      forall v, k: Groups | GroupsOk(k, reps) && Extends(h, k)
        ensures PatternValue(v, reps, k, p) == Eval(v, reps, id)
      {
        EvalUnfold(v, reps, id);
      }
    }
  }

  lemma {:induction false} MatchArgumentsSound(p: Pattern, args: seq<Id>, reps: seq<Expr>, g: Groups)
    requires WellFormed(reps) && GroupsOk(g, reps) && PatternOk(p)
    requires p.Apply0? || p.Apply1? || p.Apply2? || p.Apply3?
    requires |args| == InfoOf(p.op).args && AllBelow(args, |reps|)
    requires MatchArguments(p, args, reps, g).Some?
    ensures var h := MatchArguments(p, args, reps, g).value;
            GroupsOk(h, reps) && Extends(g, h) && AppliesTo(p, p.op, reps, h, args)
    decreases p, 0
  {
    match p
    case Apply0(op) =>
      assert forall v :: ArgValues(v, reps, args) == [];
    case Apply1(op, q) =>
      MatchClassSound(q, args[0], reps, g);
      Apply1Value(op, q, reps, MatchArguments(p, args, reps, g).value, args);
    case Apply2(op, q, r) =>
      var g1 := MatchClass(q, args[0], reps, g).value;
      MatchClassSound(q, args[0], reps, g);
      MatchClassSound(r, args[1], reps, g1);
      var h := MatchArguments(p, args, reps, g).value;
      StandsForLonger(q, reps, g1, h, args[0]);
      Apply2Value(op, q, r, reps, h, args);
    case Apply3(op, q, r, s) =>
      var g1 := MatchClass(q, args[0], reps, g).value;
      var g2 := MatchClass(r, args[1], reps, g1).value;
      MatchClassSound(q, args[0], reps, g);
      MatchClassSound(r, args[1], reps, g1);
      MatchClassSound(s, args[2], reps, g2);
      var h := MatchArguments(p, args, reps, g).value;
      StandsForLonger(q, reps, g1, h, args[0]);
      StandsForLonger(r, reps, g2, h, args[1]);
      Apply3Value(op, q, r, s, reps, h, args);
  }

  lemma {:induction false} Apply1Value(op: Opcode, q: Pattern, reps: seq<Expr>, h: Groups, args: seq<Id>)
    requires WellFormed(reps) && |args| == 1 && AllBelow(args, |reps|)
    requires StandsFor(q, reps, h, args[0])
    ensures AppliesTo(Apply1(op, q), op, reps, h, args)
  {
    forall v, k: Groups | GroupsOk(k, reps) && Extends(h, k)
      ensures PatternValue(v, reps, k, Apply1(op, q)) == v.apply(op, ArgValues(v, reps, args))
    {
      assert [PatternValue(v, reps, k, q)] == ArgValues(v, reps, args);
    }
  }

  lemma {:induction false} Apply2Value(op: Opcode, q: Pattern, r: Pattern, reps: seq<Expr>, h: Groups, args: seq<Id>)
    requires WellFormed(reps) && |args| == 2 && AllBelow(args, |reps|)
    requires StandsFor(q, reps, h, args[0]) && StandsFor(r, reps, h, args[1])
    ensures AppliesTo(Apply2(op, q, r), op, reps, h, args)
  {
    forall v, k: Groups | GroupsOk(k, reps) && Extends(h, k)
      ensures PatternValue(v, reps, k, Apply2(op, q, r)) == v.apply(op, ArgValues(v, reps, args))
    {
      assert [PatternValue(v, reps, k, q), PatternValue(v, reps, k, r)] == ArgValues(v, reps, args);
    }
  }

  lemma {:induction false} Apply3Value(op: Opcode, q: Pattern, r: Pattern, s: Pattern, reps: seq<Expr>, h: Groups,
      args: seq<Id>)
    requires WellFormed(reps) && |args| == 3 && AllBelow(args, |reps|)
    requires StandsFor(q, reps, h, args[0]) && StandsFor(r, reps, h, args[1]) && StandsFor(s, reps, h, args[2])
    ensures AppliesTo(Apply3(op, q, r, s), op, reps, h, args)
  {
    hide GroupsOk, Extends, Eval, WellFormed;
    forall v, k: Groups | GroupsOk(k, reps) && Extends(h, k)
      ensures PatternValue(v, reps, k, Apply3(op, q, r, s)) == v.apply(op, ArgValues(v, reps, args))
    {
      assert PatternValue(v, reps, k, q) == Eval(v, reps, args[0]);
      assert PatternValue(v, reps, k, r) == Eval(v, reps, args[1]);
      assert PatternValue(v, reps, k, s) == Eval(v, reps, args[2]);
      assert [PatternValue(v, reps, k, q), PatternValue(v, reps, k, r), PatternValue(v, reps, k, s)] == ArgValues(v, reps, args);
    }
  }
}
