/** Hash-consing of expressions into equivalence classes, with simplification. */
module Classes {
  import opened Words
  import opened Instructions
  import opened Arithmetic
  import opened Items
  import opened Rules
  import opened RulesSound
  import opened Expressions

  // ----- first-match lookup -----

  /** A rule's replacement together with the classes its groups were bound to. */
  datatype Rewrite = Rewrite(template: Pattern, groups: Groups)

  predicate Applies(r: Rule, e: Expr, reps: seq<Expr>) {
    var g := MatchExpression(r.pattern, e, reps);
    g.Some? && r.feasible(ConstantsOf(g.value))
  }

  /** The value an expression has over the classes so far. */
  ghost function ExprValue(v: Valuation, reps: seq<Expr>, e: Expr): Word
    requires WellFormed(reps) && ExprOk(e, |reps|)
  {
    EvalExpr(v, e, ArgValues(v, reps, e.arguments))
  }

  // ----- the rules that lookup can return -----

  lemma {:induction false} EarlyRules(i: nat)
    requires i < 20
    ensures |RuleList()| > 20
    ensures RuleList()[i].pattern != UnreachableMulMod().pattern
  {
    var before := Fold1() + Fold2() + Fold3() + Fold4();
    assert |before| == 19;
    assert RuleList()[..20] == before + [Fold5()[0]];
    assert RuleList()[i] in before + [Fold5()[0]];
  }

  lemma {:induction false} MulModEntries()
    ensures |RuleList()| > 21 && RuleList()[20] == Fold5()[1] && RuleList()[21] == UnreachableMulMod()
    ensures RuleList()[20] != RuleList()[21] && RuleList()[20].pattern == RuleList()[21].pattern
    ensures forall k :: RuleList()[20].feasible(k)
  {
    var before := Fold1() + Fold2() + Fold3() + Fold4();
    assert |before| == 19;
    assert RuleList()[..22] == before + Fold5();
    assert UnreachableMulMod().action(Constants(3, 5, 7)) == Literal(15);
    assert Fold5()[1].action(Constants(3, 5, 7)) == Literal(1);
  }

  /** The second MULMOD entry is unreachable: whenever it would match, the first one matches before it. */
  lemma {:induction false} MulModShadowed(i: nat, e: Expr, reps: seq<Expr>)
    requires i < |RuleList()| && RuleList()[i] == UnreachableMulMod() && Applies(RuleList()[i], e, reps)
    ensures 20 < i && Applies(RuleList()[20], e, reps)
  {
    MulModEntries();
    if i < 20 { EarlyRules(i); }
  }

  /** No class is an account creation, so the rules that mask one never match. */
  lemma {:induction false} MaskedCreationsNeverMatch(r: Rule, e: Expr, reps: seq<Expr>)
    requires WellFormed(reps) && ExprOk(e, |reps|) && r in MaskedCreations()
    ensures !Applies(r, e, reps)
  {
    if r in MaskedAddress(CREATE) {
      MaskedCreationNeverMatches(CREATE, r, e, reps);
    } else {
      MaskedCreationNeverMatches(CREATE2, r, e, reps);
    }
  }

  lemma {:induction false} MaskedCreationNeverMatches(op: Opcode, r: Rule, e: Expr, reps: seq<Expr>)
    requires WellFormed(reps) && ExprOk(e, |reps|) && r in MaskedAddress(op) && (op == CREATE || op == CREATE2)
    ensures !Applies(r, e, reps)
  {
    forall id: nat, g: Groups ensures MatchClass(Apply0(op), id, reps, g).None? {
      if id < |reps| { assert ExprOk(reps[id], id); }
    }
    assert r.pattern == Apply2(AND, Apply0(op), Literal(ADDRESS_LIMIT - 1)) || r.pattern == Apply2(AND, Literal(ADDRESS_LIMIT - 1), Apply0(op));
    assert MatchArguments(r.pattern, e.arguments, reps, map[]).None?;
  }

  /** A rule that preserves values and builds well-formed expressions, for all operands. */
  ghost predicate RuleOk(r: Rule) {
    && PatternOk(r.pattern)
    && (forall k :: PatternOk(r.action(k)))
    && (forall read: Reader, k, x, y | ReadsAddresses(read) :: Preserves(r, read, k, x, y))
  }

  lemma {:induction false} RuleIsOk(r: Rule)
    requires r in RuleList() && r != UnreachableMulMod() && r !in MaskedCreations()
    ensures RuleOk(r)
  {
    forall k ensures PatternOk(r.pattern) && PatternOk(r.action(k)) { RuleShaped(r, k); }
    assert PatternOk(r.pattern) by { RuleShaped(r, Constants(0, 0, 0)); }
    forall read: Reader, k, x, y | ReadsAddresses(read)
      ensures Preserves(r, read, k, x, y)
    { RulePreserves(r, read, k, x, y); }
  }

  /** In this list, whatever applies first preserves values. */
  ghost predicate FirstIsOk(rules: seq<Rule>, e: Expr, reps: seq<Expr>) {
    forall i :: 0 <= i < |rules| && Applies(rules[i], e, reps) && !(exists j :: 0 <= j < i && Applies(rules[j], e, reps))
      ==> RuleOk(rules[i])
  }

  lemma {:induction false} RuleListIsOk(e: Expr, reps: seq<Expr>)
    requires WellFormed(reps) && ExprOk(e, |reps|)
    ensures FirstIsOk(RuleList(), e, reps)
  {
    var rules := RuleList();
    forall i | 0 <= i < |rules| && Applies(rules[i], e, reps) && !(exists j :: 0 <= j < i && Applies(rules[j], e, reps))
      ensures RuleOk(rules[i])
    {
      var r := rules[i];
      assert r in rules;
      if r == UnreachableMulMod() { MulModShadowed(i, e, reps); }
      if r in MaskedCreations() { MaskedCreationsNeverMatch(r, e, reps); }
      RuleIsOk(r);
    }
  }

  lemma {:induction false} MatchedRuleSound(r: Rule, e: Expr, reps: seq<Expr>)
    requires WellFormed(reps) && ExprOk(e, |reps|) && e.item.Operation?
    requires RuleOk(r) && Applies(r, e, reps)
    ensures var g := MatchExpression(r.pattern, e, reps).value; var t := r.action(ConstantsOf(g));
            && GroupsOk(g, reps) && PatternOk(t) && e.sequenceNumber == 0
            && forall v | Sensible(v) :: PatternValue(v, reps, g, t) == ExprValue(v, reps, e)
  {
    var g := MatchExpression(r.pattern, e, reps).value;
    var k := ConstantsOf(g);
    var t := r.action(k);
    assert r.pattern.Apply0? || r.pattern.Apply1? || r.pattern.Apply2? || r.pattern.Apply3?;
    MatchArgumentsSound(r.pattern, e.arguments, reps, map[]);
    forall v | Sensible(v) ensures PatternValue(v, reps, g, t) == ExprValue(v, reps, e) {
      PreservedValue(v, reps, g, r);
      assert Extends(g, g);
    }
  }

  lemma {:induction false} PreservedValue(v: Valuation, reps: seq<Expr>, g: Groups, r: Rule)
    requires WellFormed(reps) && GroupsOk(g, reps) && Sensible(v) && RuleOk(r) && r.feasible(ConstantsOf(g))
    ensures PatternValue(v, reps, g, r.action(ConstantsOf(g))) == PatternValue(v, reps, g, r.pattern)
  {
    PatternValueIsEval(v, reps, g, r.action(ConstantsOf(g)));
    PatternValueIsEval(v, reps, g, r.pattern);
    assert Preserves(r, v.apply, ConstantsOf(g), GroupValue(v, reps, g, 4), GroupValue(v, reps, g, 5));
  }

  /** The first rule, in list order, that matches and is feasible. */
  method FindFirstMatch(rules: seq<Rule>, e: Expr, reps: seq<Expr>) returns (m: Option<Rewrite>)
    requires WellFormed(reps) && ExprOk(e, |reps|) && e.item.Operation?
    requires FirstIsOk(rules, e, reps)
    ensures m.Some? ==>
              && GroupsOk(m.value.groups, reps) && PatternOk(m.value.template) && e.sequenceNumber == 0
              && forall v | Sensible(v) :: PatternValue(v, reps, m.value.groups, m.value.template) == ExprValue(v, reps, e)
    ensures m.None? ==> forall i :: 0 <= i < |rules| ==> !Applies(rules[i], e, reps)
  {
    var i := 0;
    while i < |rules|
      invariant 0 <= i <= |rules|
      invariant forall j :: 0 <= j < i ==> !Applies(rules[j], e, reps)
    {
      var g := MatchExpression(rules[i].pattern, e, reps);
      if g.Some? && rules[i].feasible(ConstantsOf(g.value)) {
        MatchedRuleSound(rules[i], e, reps);
        return Some(Rewrite(rules[i].action(ConstantsOf(g.value)), g.value));
      }
      i := i + 1;
    }
    m := None;
  }

  // ----- the class table -----

  /** Class `id` has the value of expression e under every valuation. */
  ghost predicate Denotes(reps: seq<Expr>, e: Expr, id: Id)
    requires WellFormed(reps)
  {
    && ExprOk(e, |reps|) && id < |reps|
    && forall v | Sensible(v) :: ExprValue(v, reps, e) == Eval(v, reps, id)
  }

  lemma {:induction false} DenotesPrefix(reps: seq<Expr>, more: seq<Expr>, e: Expr, id: Id)
    requires WellFormed(reps) && WellFormed(more) && reps <= more && Denotes(reps, e, id)
    ensures Denotes(more, e, id)
  {
    forall v | Sensible(v) ensures ExprValue(v, more, e) == Eval(v, more, id) {
      ArgValuesPrefix(v, reps, more, e.arguments);
      EvalPrefix(v, reps, more, id);
    }
  }

  /** The table of all expressions seen so far agrees with the classes, and an access to
      memory or storage, a pushed value and an unknown are classes of their own. */
  ghost predicate Recorded(reps: seq<Expr>, table: map<Expr, Id>)
    requires WellFormed(reps)
  {
    forall e <- table :: Denotes(reps, e, table[e]) && (e.sequenceNumber != 0 || !e.item.Operation? ==> reps[table[e]] == e)
  }

  lemma {:induction false} RecordedPrefix(reps: seq<Expr>, more: seq<Expr>, table: map<Expr, Id>)
    requires WellFormed(reps) && WellFormed(more) && reps <= more && Recorded(reps, table)
    ensures Recorded(more, table)
  {
    forall e <- table ensures Denotes(more, e, table[e]) { DenotesPrefix(reps, more, e, table[e]); }
  }

  /** Operands of commutative operations are kept in ascending order. */
  function Normalised(e: Expr): Expr {
    if IsCommutativeItem(e.item) && |e.arguments| == 2 && e.arguments[0] > e.arguments[1]
    then e.(arguments := [e.arguments[1], e.arguments[0]]) else e
  }

  lemma {:induction false} NormalisedValue(reps: seq<Expr>, e: Expr)
    requires WellFormed(reps) && ExprOk(e, |reps|)
    ensures ExprOk(Normalised(e), |reps|)
    ensures forall v | Sensible(v) :: ExprValue(v, reps, Normalised(e)) == ExprValue(v, reps, e)
  {
    if Normalised(e) != e {
      forall v | Sensible(v) ensures ExprValue(v, reps, Normalised(e)) == ExprValue(v, reps, e) {
        CommutedValue(v, e.item.op, ArgValues(v, reps, e.arguments), ArgValues(v, reps, Normalised(e).arguments));
      }
    }
  }

  lemma {:induction false} CommutedValue(v: Valuation, op: Opcode, args: seq<Word>, swapped: seq<Word>)
    requires Sensible(v) && IsCommutative(op) && |args| == 2 && |swapped| == 2 && swapped[0] == args[1]
    requires swapped[1] == args[0]
    ensures v.apply(op, args) == v.apply(op, swapped)
  {
    CommutativeOps(op, args[0], args[1]);
    assert v.apply(op, args) == Arith(op, args);
    assert v.apply(op, swapped) == Arith(op, swapped);
  }

  lemma {:induction false} AppendClass(reps: seq<Expr>, e: Expr)
    requires WellFormed(reps) && ExprOk(e, |reps|)
    ensures WellFormed(reps + [e]) && Denotes(reps + [e], e, |reps|)
  {
    var more := reps + [e];
    forall i | 0 <= i < |more| ensures ExprOk(more[i], i) {
      if i < |reps| { assert ExprOk(reps[i], i); }
    }
    forall v | Sensible(v) ensures ExprValue(v, more, e) == Eval(v, more, |reps|) {
      EvalUnfold(v, more, |reps|);
    }
  }

  /** Class `id` has the value of the pattern under the groups g. */
  ghost predicate Builds(reps: seq<Expr>, g: Groups, p: Pattern, id: Id)
    requires WellFormed(reps)
  {
    && GroupsOk(g, reps) && id < |reps|
    && forall v | Sensible(v) :: Eval(v, reps, id) == PatternValue(v, reps, g, p)
  }

  lemma {:induction false} PatternValuePrefix(v: Valuation, reps: seq<Expr>, more: seq<Expr>, g: Groups, p: Pattern)
    requires WellFormed(reps) && WellFormed(more) && reps <= more && GroupsOk(g, reps)
    ensures GroupsOk(g, more) && PatternValue(v, more, g, p) == PatternValue(v, reps, g, p)
    decreases p
  {
    match p
    case Any(n) => if n in g { EvalPrefix(v, reps, more, g[n].id); }
    case Constant(_) =>
    case Literal(_) =>
    case Apply0(_) =>
    case Apply1(_, q) =>
      PatternValuePrefix(v, reps, more, g, q);
    case Apply2(_, q, r) =>
      PatternValuePrefix(v, reps, more, g, q);
      PatternValuePrefix(v, reps, more, g, r);
    case Apply3(_, q, r, s) =>
      PatternValuePrefix(v, reps, more, g, q);
      PatternValuePrefix(v, reps, more, g, r);
      PatternValuePrefix(v, reps, more, g, s);
  }

  lemma {:induction false} BuildsPrefix(reps: seq<Expr>, more: seq<Expr>, g: Groups, p: Pattern, id: Id)
    requires WellFormed(reps) && WellFormed(more) && reps <= more && Builds(reps, g, p, id)
    ensures Builds(more, g, p, id)
  {
    forall v | Sensible(v) ensures Eval(v, more, id) == PatternValue(v, more, g, p) {
      EvalPrefix(v, reps, more, id);
      PatternValuePrefix(v, reps, more, g, p);
    }
  }

  /** The operands of an operation pattern. */
  function Operands(p: Pattern): seq<Pattern> {
    match p
    case Apply1(_, q) => [q]
    case Apply2(_, q, r) => [q, r]
    case Apply3(_, q, r, s) => [q, r, s]
    case _ => []
  }

  lemma {:induction false} OperationValue(v: Valuation, reps: seq<Expr>, g: Groups, p: Pattern, vals: seq<Word>)
    requires WellFormed(reps) && GroupsOk(g, reps) && (p.Apply0? || p.Apply1? || p.Apply2? || p.Apply3?)
    requires |vals| == |Operands(p)| && forall i :: 0 <= i < |vals| ==>
              vals[i] == PatternValue(v, reps, g, Operands(p)[i])
    ensures PatternValue(v, reps, g, p) == v.apply(p.op, vals)
  {
    match p
    case Apply0(_) => assert vals == [];
    case Apply1(_, q) => assert vals == [PatternValue(v, reps, g, q)];
    case Apply2(_, q, r) => assert vals == [PatternValue(v, reps, g, q), PatternValue(v, reps, g, r)];
    case Apply3(_, q, r, s) => assert vals == [PatternValue(v, reps, g, q), PatternValue(v, reps, g, r), PatternValue(v, reps, g, s)];
  }

  lemma {:induction false} BuildsOperation(reps: seq<Expr>, g: Groups, p: Pattern, args: seq<Id>, id: Id)
    requires WellFormed(reps) && PatternOk(p) && GroupsOk(g, reps)
    requires p.Apply0? || p.Apply1? || p.Apply2? || p.Apply3?
    requires |args| == |Operands(p)| && forall i :: 0 <= i < |args| ==> Builds(reps, g, Operands(p)[i], args[i])
    requires Denotes(reps, Expr(Operation(p.op), args, 0), id)
    ensures Builds(reps, g, p, id)
  {
    forall v | Sensible(v) ensures Eval(v, reps, id) == PatternValue(v, reps, g, p) {
      OperationValue(v, reps, g, p, ArgValues(v, reps, args));
    }
  }

  /** Looks an expression up in the whole rule list. */
  method LookUp(e: Expr, reps: seq<Expr>) returns (m: Option<Rewrite>)
    requires WellFormed(reps) && ExprOk(e, |reps|) && e.item.Operation?
    ensures m.Some? ==> GroupsOk(m.value.groups, reps) && PatternOk(m.value.template)
    ensures m.Some? ==> forall v | Sensible(v) ::
              PatternValue(v, reps, m.value.groups, m.value.template) == ExprValue(v, reps, e)
    ensures m.Some? ==> e.sequenceNumber == 0
  {
    RuleListIsOk(e, reps);
    m := FindFirstMatch(RuleList(), e, reps);
  }

  /** No fuel left, no rule for the expression, or the class of the simpler expression. */
  datatype Attempt = OutOfFuel | NoRule | Simplified(id: Id)

  /** Nothing but plain expressions, and no tags, was added to the classes. */
  ghost predicate AddsPlain(old_: seq<Expr>, new_: seq<Expr>) {
    AddsUnsequenced(old_, new_) && forall i :: |old_| <= i < |new_| ==> !IsPushTag(new_[i].item)
  }

  ghost predicate AddsUnsequenced(old_: seq<Expr>, new_: seq<Expr>) {
    old_ <= new_ && forall i :: |old_| <= i < |new_| ==> new_[i].sequenceNumber == 0
  }

  /** No tag but possibly the given item was added. */
  ghost predicate AddsNoTagBut(item: Item, old_: seq<Expr>, new_: seq<Expr>) {
    forall i :: |old_| <= i < |new_| && IsPushTag(new_[i].item) ==> new_[i].item == item
  }

  /** Plain classes, and at most one more with the given item. */
  lemma {:induction false} OneMoreClass(item: Item, a: seq<Expr>, b: seq<Expr>, c: seq<Expr>, e: Expr)
    requires AddsPlain(a, b) && (c == b || (c <= b + [e] && e.item == item))
    ensures AddsNoTagBut(item, a, c)
  {
  }

  class ExpressionClasses {
    var representatives: seq<Expr>
    var expressions: map<Expr, Id>

    ghost predicate Valid()
      reads this
    {
      WellFormed(representatives) && Recorded(representatives, expressions)
    }

    constructor ()
      ensures Valid() && representatives == [] && expressions == map[]
    {
      representatives, expressions := [], map[];
    }

    /** The class of an expression, made if needed. Simplification can need any number of
        further look-ups; `fuel` bounds their nesting and None means that the bound was hit. */
    method Find(item: Item, arguments: seq<Id>, sequenceNumber: nat, fuel: nat) returns (r: Option<Id>)
      requires Valid() && ExprOk(Expr(item, arguments, sequenceNumber), |representatives|)
      modifies this
      ensures Valid() && old(representatives) <= representatives
      ensures r.Some? ==> Denotes(representatives, Expr(item, arguments, sequenceNumber), r.value)
      ensures sequenceNumber == 0 && !IsPushTag(item) ==> AddsPlain(old(representatives), representatives)
      ensures sequenceNumber != 0 || !item.Operation? ==>
                r.Some? && representatives[r.value] == Expr(item, arguments, sequenceNumber)
      ensures sequenceNumber != 0 || !item.Operation? ==>
                representatives <= old(representatives) + [Expr(item, arguments, sequenceNumber)]
      decreases fuel, 1
    {
      var e := Normalised(Expr(item, arguments, sequenceNumber));
      NormalisedValue(representatives, Expr(item, arguments, sequenceNumber));
      if IsDeterministicItem(item) && e in expressions {
        DenotesNormalised(representatives, Expr(item, arguments, sequenceNumber), expressions[e]);
        return Some(expressions[e]);
      }
      var attempt := NoRule;
      if item.Operation? && IsDeterministicItem(item) {
        attempt := TryToSimplify(e, fuel);
        if attempt.OutOfFuel? { return None; }
      }
      var id: Id;
      if attempt.Simplified? {
        id := attempt.id;
      } else {
        id := AddClass(e);
      }
      NormalisedValue(representatives, Expr(item, arguments, sequenceNumber));
      DenotesNormalised(representatives, Expr(item, arguments, sequenceNumber), id);
      if e !in expressions {
        expressions := expressions[e := id];
      }
      r := Some(id);
    }

    method AddClass(e: Expr) returns (id: Id)
      requires Valid() && ExprOk(e, |representatives|)
      modifies this`representatives
      ensures Valid() && representatives == old(representatives) + [e]
      ensures Denotes(representatives, e, id) && representatives[id] == e
    {
      id := |representatives|;
      AppendClass(representatives, e);
      RecordedPrefix(representatives, representatives + [e], expressions);
      representatives := representatives + [e];
    }

    method TryToSimplify(e: Expr, fuel: nat) returns (a: Attempt)
      requires Valid() && ExprOk(e, |representatives|) && e.item.Operation?
      modifies this
      ensures Valid() && AddsPlain(old(representatives), representatives)
      ensures a.Simplified? ==> Denotes(representatives, e, a.id)
      ensures a.NoRule? ==> representatives == old(representatives)
      ensures e.sequenceNumber != 0 ==> a.NoRule? && representatives == old(representatives)
      decreases fuel, 0
    {
      var m := LookUp(e, representatives);
      if m.None? { return NoRule; }
      if fuel == 0 { return OutOfFuel; }
      ghost var before := representatives;
      var id := Rebuild(m.value.template, m.value.groups, fuel - 1);
      if id.None? { return OutOfFuel; }
      forall v | Sensible(v) ensures ExprValue(v, representatives, e) == Eval(v, representatives, id.value) {
        PatternValuePrefix(v, before, representatives, m.value.groups, m.value.template);
        ArgValuesPrefix(v, before, representatives, e.arguments);
      }
      a := Simplified(id.value);
    }

    /** Builds the classes of a rule's replacement, operands first. */
    method Rebuild(p: Pattern, g: Groups, fuel: nat) returns (r: Option<Id>)
      requires Valid() && PatternOk(p) && GroupsOk(g, representatives)
      modifies this
      ensures Valid() && AddsPlain(old(representatives), representatives)
      ensures r.Some? ==> Builds(representatives, g, p, r.value)
      decreases fuel, 2, p
    {
      if p.Any? || p.Constant? {
        r := if p.group in g then Some(g[p.group].id) else None;
        forall v | r.Some? && Sensible(v)
          ensures Eval(v, representatives, r.value) == PatternValue(v, representatives, g, p)
        {
          EvalUnfold(v, representatives, r.value);
        }
      } else if p.Literal? {
        r := Find(PushWord(p.value), [], 0, fuel);
        assert r.Some? ==> Builds(representatives, g, p, r.value);
      } else {
        var args := RebuildOperands(p, 0, g, fuel);
        if args.None? { return None; }
        ghost var before := representatives;
        r := Find(Operation(p.op), args.value, 0, fuel);
        if r.Some? {
          forall i | 0 <= i < |args.value| ensures Builds(representatives, g, Operands(p)[i], args.value[i]) {
            BuildsPrefix(before, representatives, g, Operands(p)[i], args.value[i]);
          }
          BuildsOperation(representatives, g, p, args.value, r.value);
        }
      }
    }

    /** Builds the operands of a pattern from the given one on. */
    method RebuildOperands(p: Pattern, from: nat, g: Groups, fuel: nat) returns (r: Option<seq<Id>>)
      requires Valid() && PatternOk(p) && GroupsOk(g, representatives) && from <= |Operands(p)|
      requires p.Apply0? || p.Apply1? || p.Apply2? || p.Apply3?
      modifies this
      ensures Valid() && AddsPlain(old(representatives), representatives) && GroupsOk(g, representatives)
      ensures r.Some? ==> |r.value| == |Operands(p)| - from
      ensures r.Some? ==> forall i :: 0 <= i < |r.value| ==> Builds(representatives, g, Operands(p)[from + i], r.value[i])
      decreases fuel, 2, p, |Operands(p)| - from
    {
      if from == |Operands(p)| { return Some([]); }
      var first := Rebuild(Operands(p)[from], g, fuel);
      if first.None? { return None; }
      ghost var before := representatives;
      var rest := RebuildOperands(p, from + 1, g, fuel);
      if rest.None? { return None; }
      BuildsPrefix(before, representatives, g, Operands(p)[from], first.value);
      r := Some([first.value] + rest.value);
    }
  
    // ----- what is known about the value of a class -----

    function KnownConstant(c: Id): (w: Option<Word>)
      requires Valid() && c < |representatives|
      reads this
      ensures w.Some? ==> forall v :: Eval(v, representatives, c) == w.value
    {
      ConstantValue(representatives, c);
      if IsPushWord(representatives[c].item) then Some(representatives[c].item.data) else None
    }

    predicate KnownZero(c: Id)
      requires Valid() && c < |representatives|
      reads this
      ensures KnownZero(c) ==> forall v :: Eval(v, representatives, c) == 0
    {
      KnownConstant(c) == Some(0)
    }

    method KnownNonZero(c: Id, fuel: nat) returns (r: Option<bool>)
      requires Valid() && c < |representatives|
      modifies this
      ensures Valid() && AddsPlain(old(representatives), representatives)
      ensures r == Some(true) ==> forall v | Sensible(v) :: Eval(v, representatives, c) != 0
    {
      var id := Find(Operation(ISZERO), [c], 0, fuel);
      if id.None? { return None; }
      r := Some(KnownZero(id.value));
      if r.value { ZeroIsZero(representatives, c, id.value); }
    }

    /** Tries to simplify the difference to a constant that is not zero. */
    method KnownToBeDifferent(a: Id, b: Id, fuel: nat) returns (r: Option<bool>)
      requires Valid() && a < |representatives| && b < |representatives|
      modifies this
      ensures Valid() && AddsPlain(old(representatives), representatives)
      ensures r == Some(true) ==> Different(representatives, a, b)
    {
      var id := Find(Operation(SUB), [a, b], 0, fuel);
      if id.None? { return None; }
      ghost var before := representatives;
      r := KnownNonZero(id.value, fuel);
      if r == Some(true) { NonZeroDifference(before, representatives, a, b, id.value); }
    }

    /** Tries to simplify the difference to a constant at least 32 away from zero, modulo 2^256. */
    method KnownToBeDifferentBy32(a: Id, b: Id, fuel: nat) returns (r: Option<bool>)
      requires Valid() && a < |representatives| && b < |representatives|
      modifies this
      ensures Valid() && AddsPlain(old(representatives), representatives)
      ensures r == Some(true) ==> DifferentBy32(representatives, a, b)
    {
      var id := Find(Operation(SUB), [a, b], 0, fuel);
      if id.None? { return None; }
      var w := KnownConstant(id.value);
      r := Some(w.Some? && (w.value + 31) % MODULUS > 62);
      if r.value { ConstantDifference(representatives, a, b, id.value); }
    }
  }

  /** The two classes have different values under every valuation. */
  ghost predicate Different(reps: seq<Expr>, a: Id, b: Id)
    requires WellFormed(reps) && a < |reps| && b < |reps|
  {
    forall v | Sensible(v) :: Eval(v, reps, a) != Eval(v, reps, b)
  }

  predicate FarApart(x: Word, y: Word) { (Sub(x, y) + 31) % MODULUS > 62 }

  /** The 32 bytes from one value never meet the 32 bytes from the other, modulo 2^256. */
  ghost predicate DifferentBy32(reps: seq<Expr>, a: Id, b: Id)
    requires WellFormed(reps) && a < |reps| && b < |reps|
  {
    forall v | Sensible(v) :: FarApart(Eval(v, reps, a), Eval(v, reps, b))
  }

  lemma {:induction false} ConstantValue(reps: seq<Expr>, c: Id)
    requires WellFormed(reps) && c < |reps|
    ensures IsPushWord(reps[c].item) ==> forall v :: Eval(v, reps, c) == reps[c].item.data
  {
    forall v ensures IsPushWord(reps[c].item) ==> Eval(v, reps, c) == reps[c].item.data { EvalUnfold(v, reps, c); }
  }

  lemma {:induction false} DifferenceValue(v: Valuation, reps: seq<Expr>, a: Id, b: Id, d: Id)
    requires WellFormed(reps) && Denotes(reps, Expr(Operation(SUB), [a, b], 0), d) && Sensible(v)
    ensures a < |reps| && b < |reps| && Eval(v, reps, d) == Sub(Eval(v, reps, a), Eval(v, reps, b))
  {
    var e := Expr(Operation(SUB), [a, b], 0);
    assert a == e.arguments[0] && b == e.arguments[1];
    var vals := ArgValues(v, reps, e.arguments);
    assert v.apply(SUB, vals) == Arith(SUB, vals);
  }

  lemma {:induction false} ZeroIsZero(reps: seq<Expr>, c: Id, z: Id)
    requires WellFormed(reps) && Denotes(reps, Expr(Operation(ISZERO), [c], 0), z) && c < |reps|
    requires forall v :: Eval(v, reps, z) == 0
    ensures forall v | Sensible(v) :: Eval(v, reps, c) != 0
  {
    var e := Expr(Operation(ISZERO), [c], 0);
    forall v | Sensible(v) ensures Eval(v, reps, c) != 0 {
      var vals := ArgValues(v, reps, e.arguments);
      assert v.apply(ISZERO, vals) == Arith(ISZERO, vals);
      assert vals[0] == Eval(v, reps, e.arguments[0]);
    }
  }

  lemma {:induction false} NonZeroDifference(reps: seq<Expr>, more: seq<Expr>, a: Id, b: Id, d: Id)
    requires WellFormed(reps) && WellFormed(more) && reps <= more && Denotes(reps, Expr(Operation(SUB), [a, b], 0), d)
    requires forall v | Sensible(v) :: Eval(v, more, d) != 0
    ensures a < |more| && b < |more| && Different(more, a, b)
  {
    DenotesPrefix(reps, more, Expr(Operation(SUB), [a, b], 0), d);
    var e := Expr(Operation(SUB), [a, b], 0);
    assert a == e.arguments[0] && b == e.arguments[1];
    forall v | Sensible(v) ensures Eval(v, more, a) != Eval(v, more, b) { DifferenceValue(v, more, a, b, d); }
  }

  lemma {:induction false} ConstantDifference(reps: seq<Expr>, a: Id, b: Id, d: Id)
    requires WellFormed(reps) && Denotes(reps, Expr(Operation(SUB), [a, b], 0), d) && a < |reps| && b < |reps|
    requires IsPushWord(reps[d].item) && (reps[d].item.data + 31) % MODULUS > 62
    ensures DifferentBy32(reps, a, b)
  {
    ConstantValue(reps, d);
    forall v | Sensible(v) ensures FarApart(Eval(v, reps, a), Eval(v, reps, b)) { DifferenceValue(v, reps, a, b, d); }
  }

  lemma {:induction false} DenotesNormalised(reps: seq<Expr>, e: Expr, id: Id)
    requires WellFormed(reps) && ExprOk(e, |reps|) && Denotes(reps, Normalised(e), id)
    ensures Denotes(reps, e, id)
  {
    NormalisedValue(reps, e);
  }
}
