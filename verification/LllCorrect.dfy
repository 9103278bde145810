/** Compiled LLL code computes the meaning of its tree. */
module LllCorrect {
  import opened Words
  import opened Instructions
  import opened Items
  import opened Machine
  import opened Segments
  import opened Lll
  import opened LllMeaning
  import opened LllSound
  import opened LllLayout

  /** The code of a tree at a position computes what the tree means, on top of any stack. */
  ghost predicate Correct(env: Env, p: seq<Item>, pc: nat, e: Expr, base: seq<Value>, w: World, fuel: nat)
    requires Translate(e).Some?
  {
    Computes(env, p, pc, State(base, w), pc + |Translate(e).value.items|, base, Eval(env, e, w, fuel), Translate(e).value.deposit)
  }

  lemma {:induction false} Sound(env: Env, p: seq<Item>, pc: nat, e: Expr, base: seq<Value>, w: World, fuel: nat)
    requires Ready(env, p) && Translate(e).Some? && Lies(p, pc, Translate(e).value)
    ensures Correct(env, p, pc, e, base, w, fuel)
    decreases fuel, e, 3
  {
    hide *;
    match e
    case Literal(_) => LiteralSound(env, p, pc, e, base, w, fuel);
    case Call(_, _) => CallSound(env, p, pc, e, base, w, fuel);
    case Arith(_, _) => ArithSound(env, p, pc, e, base, w, fuel);
    case Binary(_, _, _, _) => BinarySound(env, p, pc, e, base, w, fuel);
    case Unary(_, _) => UnarySound(env, p, pc, e, base, w, fuel);
    case Sequence(_) => SequenceSound(env, p, pc, e, base, w, fuel);
    case If(_, _, _) => IfSound(env, p, pc, e, base, w, fuel);
    case When(_, _, _) => WhenSound(env, p, pc, e, base, w, fuel);
    case Loop(_, _, _) => LoopSound(env, p, pc, e, base, w, fuel);
    case For(_, _, _, _) => ForSound(env, p, pc, e, base, w, fuel);
    case Switch(_, _) => SwitchSound(env, p, pc, e, base, w, fuel);
    case ShortCircuit(_, _) => ShortCircuitSound(env, p, pc, e, base, w, fuel);
  }

  /** A part of a tree whose surplus is dropped. */
  lemma {:induction false} TrimmedSound(env: Env, p: seq<Item>, pc: nat, e: Expr, deposit: int, base: seq<Value>,
      w: World, fuel: nat)
    requires Ready(env, p) && Translate(e).Some? && TrimmedAt(p, pc, Translate(e).value, deposit)
    ensures Computes(env, p, pc, State(base, w), pc + TrimmedSize(Translate(e).value, deposit), base,
                     Keep(Eval(env, e, w, fuel), deposit), deposit)
    decreases fuel, e, 4
  {
    hide Ready, Lies, Translate, Eval, CodeAt, Reaches, HaltsWith;
    var d := Translate(e).value;
    Sound(env, p, pc, e, base, w, fuel);
    if deposit >= 0 { KeepComputes(env, p, pc, State(base, w), pc + |d.items|, base, Eval(env, e, w, fuel), d.deposit, deposit); }
  }

  lemma {:induction false} LiteralSound(env: Env, p: seq<Item>, pc: nat, e: Expr, base: seq<Value>, w: World, fuel: nat)
    requires e.Literal? && Ready(env, p) && Translate(e).Some? && Lies(p, pc, Translate(e).value)
    ensures Correct(env, p, pc, e, base, w, fuel)
    decreases fuel, e, 2
  {
    hide Reaches, HaltsWith, Placed, UniqueTags, DistinctTags, EvmArithmetic;
    var n: nat :| Placed(p, pc, Translate(e).value, n);
    PlacedAdd(p, pc, EMPTY, PushWord(e.value), n);
    assert p[pc] == PushWord(e.value);
    ItemReaches(env, p, pc, State(base, w), State(base + [Num(e.value)], w));
  }

  // ----- deposits -----

  lemma {:induction false} ItemDeposits(t: nat)
    ensures Deposit(Mark(t)) == 0 && Deposit(PushMark(t)) == 1 && Deposit(Operation(JUMP)) == -1
    ensures Deposit(Operation(JUMPI)) == -2
    ensures Deposit(Operation(POP)) == -1 && Deposit(Operation(ISZERO)) == 0
  {
  }

  lemma {:induction false} OperationDeposit(op: Opcode)
    ensures Deposit(Operation(op)) == InfoOf(op).ret - InfoOf(op).args
  {
    hide InfoOf;
  }

  lemma {:induction false} CodeDeposit(c: Code, d: Code)
    ensures AddCode(c, d).deposit == c.deposit + d.deposit
  {
  }

  lemma {:induction false} JumpDeposit(c: Code, t: nat)
    ensures AddJump(c, t).deposit == c.deposit && AddJumpI(c, t).deposit == c.deposit - 1
  {
    hide Deposit, PushMark;
    ItemDeposits(t);
  }

  lemma {:induction false} ToDeposit(c: Code, d: Code, deposit: int)
    ensures AddTo(c, d, deposit).Some? ==> AddTo(c, d, deposit).value.deposit == c.deposit + deposit
  {
  }

  // ----- instructions and operators -----

  lemma {:induction false} ArgumentsSound(env: Env, p: seq<Item>, pc: nat, c: Code, es: Exprs, n: nat,
      base: seq<Value>, w: World, fuel: nat)
    requires Ready(env, p) && AddArguments(c, es).Some? && Placed(p, pc, AddArguments(c, es).value, n)
    ensures Placed(p, pc, c, n)
    ensures Computes(env, p, pc + |c.items|, State(base, w), pc + |AddArguments(c, es).value.items|, base,
                     EvalArguments(env, es, w, fuel), Length(es))
    decreases fuel, es, 1
  {
    hide Ready, Reaches, HaltsWith, Translate, Eval, AddTo, Placed, CodeAt, TrimmedAt, Keep;
    if es.Nil? {
      assert base + [] == base;
      ReachesItself(env, p, pc + |c.items|, State(base, w));
    } else {
      var rest, x := AddArguments(c, es.tail).value, Translate(es.head).value;
      AddToLies(p, pc, rest, x, 1, n);
      ArgumentsSound(env, p, pc, c, es.tail, n, base, w, fuel);
      var r := EvalArguments(env, es.tail, w, fuel);
      var b := pc + |rest.items|;
      if r.Ends? {
        TrimmedSound(env, p, b, es.head, 1, base + r.values, r.world, fuel);
        var y := Keep(Eval(env, es.head, r.world, fuel), 1);
        ComputesThen(env, p, pc + |c.items|, State(base, w), b, b + TrimmedSize(x, 1), base, r, Length(es.tail), y, 1);
      } else {
        ComputesElsewhere(env, p, pc + |c.items|, State(base, w), b, b + TrimmedSize(x, 1), base, r, Length(es.tail),
            Length(es));
      }
    }
  }

  lemma {:induction false} CallSound(env: Env, p: seq<Item>, pc: nat, e: Expr, base: seq<Value>, w: World, fuel: nat)
    requires e.Call? && Ready(env, p) && Translate(e).Some? && Lies(p, pc, Translate(e).value)
    ensures Correct(env, p, pc, e, base, w, fuel)
    decreases fuel, e, 2
  {
    hide Ready, Reaches, HaltsWith, Placed, InfoOf, ValidFunctional, AddArguments, EvalArguments, Computes, Apply;
    var n: nat :| Placed(p, pc, Translate(e).value, n);
    var c := AddArguments(EMPTY, e.args).value;
    PlacedOperation(p, pc, c, e.op, n);
    ArgumentsSound(env, p, pc, EMPTY, e.args, n, base, w, fuel);
    ArgumentDeposit(EMPTY, e.args);
    ApplyComputes(env, p, pc, State(base, w), pc + |c.items|, base, EvalArguments(env, e.args, w, fuel),
        Length(e.args), e.op);
  }

  lemma {:induction false} ArgumentDeposit(c: Code, es: Exprs)
    ensures AddArguments(c, es).Some? ==> AddArguments(c, es).value.deposit == c.deposit + Length(es)
    decreases es
  {
    hide Translate;
    if es.Cons? { ArgumentDeposit(c, es.tail); }
  }

  lemma {:induction false} TimesLies(p: seq<Item>, pc: nat, c: Code, op: Opcode, k: nat, n: nat)
    requires Placed(p, pc, AddTimes(c, Operation(op), k), n)
    ensures Placed(p, pc, c, n) && |AddTimes(c, Operation(op), k).items| == |c.items| + k && pc + |c.items| + k <= |p|
    ensures forall i :: pc + |c.items| <= i < pc + |c.items| + k ==> p[i] == Operation(op)
    decreases k
  {
    if k > 0 {
      hide Placed;
      PlacedOperation(p, pc, AddTimes(c, Operation(op), k - 1), op, n);
      TimesLies(p, pc, c, op, k - 1, n);
    }
  }

  lemma {:induction false} ArithInfo(op: Opcode)
    requires IsArithOp(op) || IsBinaryOp(op)
    ensures ValidFunctional(op) && InfoOf(op).args == 2 && InfoOf(op).ret == 1
  {
  }

  lemma {:induction false} UnaryInfo(op: Opcode)
    requires IsUnaryOp(op)
    ensures ValidFunctional(op) && InfoOf(op).args == 1 && InfoOf(op).ret == 1
  {
  }

  lemma {:induction false} FoldRuns(env: Env, p: seq<Item>, b: nat, op: Opcode, base: seq<Value>, values: seq<Value>,
      w: World)
    requires IsArithOp(op) && |values| > 0 && b + |values| - 1 <= |p|
    requires forall i :: b <= i < b + |values| - 1 ==> p[i] == Operation(op)
    ensures Computes(env, p, b, State(base + values, w), b + |values| - 1, base, Fold(env, op, values, w), 1)
    decreases |values|
  {
    hide Reaches, HaltsWith, Apply, InfoOf, IsArithOp, ValidFunctional;
    var k := |values|;
    if k == 1 {
      ReachesItself(env, p, b, State(base + values, w));
    } else {
      ArithInfo(op);
      var s, lower, upper := State(base + values, w), values[..k - 2], values[k - 2..];
      assert base + lower + upper == base + values;
      ApplyRuns(env, p, b, base + lower, upper, w, op);
      var r := Apply(env, op, upper, w);
      if r.Ends? && |r.values| == 1 {
        var next := lower + r.values;
        assert base + lower + r.values == base + next;
        FoldRuns(env, p, b + 1, op, base, next, r.world);
        ComputesAfter(env, p, b, s, b + 1, State(base + next, r.world), b + k - 1, base, Fold(env, op, next, r.world),
            1);
      }
    }
  }

  lemma {:induction false} TimesDeposit(c: Code, op: Opcode, n: nat)
    ensures IsArithOp(op) ==> AddTimes(c, Operation(op), n).deposit == c.deposit - n
  {
    if n > 0 { TimesDeposit(c, op, n - 1); }
  }

  lemma {:induction false} ArithSound(env: Env, p: seq<Item>, pc: nat, e: Expr, base: seq<Value>, w: World, fuel: nat)
    requires e.Arith? && Ready(env, p) && Translate(e).Some? && Lies(p, pc, Translate(e).value)
    ensures Correct(env, p, pc, e, base, w, fuel)
    decreases fuel, e, 2
  {
    hide Ready, Reaches, HaltsWith, Placed, IsArithOp, AddArguments, EvalArguments, Fold, AddTimes, AllOne;
    var n: nat :| Placed(p, pc, Translate(e).value, n);
    var c, k := AddArguments(EMPTY, e.args).value, Length(e.args) - 1;
    TimesLies(p, pc, c, e.op, k, n);
    ArgumentsSound(env, p, pc, EMPTY, e.args, n, base, w, fuel);
    ArgumentDeposit(EMPTY, e.args);
    TimesDeposit(c, e.op, k);
    var r := EvalArguments(env, e.args, w, fuel);
    var b := pc + |c.items|;
    if r.Ends? {
      FoldRuns(env, p, b, e.op, base, r.values, r.world);
      ComputesAfter(env, p, pc, State(base, w), b, State(base + r.values, r.world), b + k, base,
          Fold(env, e.op, r.values, r.world), 1);
    }
  }

  lemma {:induction false} BinarySound(env: Env, p: seq<Item>, pc: nat, e: Expr, base: seq<Value>, w: World, fuel: nat)
    requires e.Binary? && Ready(env, p) && Translate(e).Some? && Lies(p, pc, Translate(e).value)
    ensures Correct(env, p, pc, e, base, w, fuel)
    decreases fuel, e, 2
  {
    hide Ready, Reaches, HaltsWith, Placed, IsBinaryOp, Computes, Eval, AddCode, Deposit;
    var n: nat :| Placed(p, pc, Translate(e).value, n);
    var x, y := Translate(e.first).value, Translate(e.second).value;
    var cy := AddCode(EMPTY, y);
    var cx := AddCode(cy, x);
    var c := AddItem(cx, Operation(e.op));
    if e.negate { PlacedOperation(p, pc, c, ISZERO, n); }
    PlacedOperation(p, pc, cx, e.op, n);
    AddCodeLies(p, pc, cy, x, n);
    AddCodeLies(p, pc, EMPTY, y, n);
    BinaryComputes(env, p, pc, e, base, w, fuel);
    BinaryDeposit(x, y, e.op);
  }

  lemma {:induction false} BinaryDeposit(x: Code, y: Code, op: Opcode)
    requires IsBinaryOp(op) && x.deposit == 1 == y.deposit
    ensures var c := AddItem(AddCode(AddCode(EMPTY, y), x), Operation(op));
            c.deposit == 1 && AddItem(c, Operation(ISZERO)).deposit == 1
  {
    hide Deposit, Shift, InfoOf;
    ArithInfo(op);
    OperationDeposit(op);
    ItemDeposits(0);
  }

  lemma {:induction false} BinaryComputes(env: Env, p: seq<Item>, pc: nat, e: Expr, base: seq<Value>, w: World,
      fuel: nat)
    requires e.Binary? && Ready(env, p) && IsBinaryOp(e.op) && Translate(e.first).Some? && Translate(e.second).Some?
    requires Translate(e.first).value.deposit == 1 == Translate(e.second).value.deposit
    requires Lies(p, pc, Translate(e.second).value)
    requires Lies(p, pc + |Translate(e.second).value.items|, Translate(e.first).value)
    requires var b := pc + |Translate(e.second).value.items| + |Translate(e.first).value.items|;
             b < |p| && p[b] == Operation(e.op) && (e.negate ==> b + 1 < |p| && p[b + 1] == Operation(ISZERO))
    ensures var b := pc + |Translate(e.second).value.items| + |Translate(e.first).value.items|;
            Computes(env, p, pc, State(base, w), if e.negate then b + 2 else b + 1, base, Eval(env, e, w, fuel), 1)
    decreases fuel, e, 1
  {
    hide Ready, Reaches, HaltsWith, Lies, Translate, IsBinaryOp, Computes, Apply, ValidFunctional, InfoOf;
    var x, y := Translate(e.first).value, Translate(e.second).value;
    var a, s := pc + |y.items|, State(base, w);
    var b := a + |x.items|;
    Sound(env, p, pc, e.second, base, w, fuel);
    var ry := Eval(env, e.second, w, fuel);
    if !ry.Ends? {
      ComputesElsewhere(env, p, pc, s, a, if e.negate then b + 2 else b + 1, base, ry, 1, 1);
    } else {
      Sound(env, p, a, e.first, base + ry.values, ry.world, fuel);
      var rx := Eval(env, e.first, ry.world, fuel);
      ComputesThen(env, p, pc, s, a, b, base, ry, 1, rx, 1);
      ArithInfo(e.op);
      ApplyComputes(env, p, pc, s, b, base, Append(ry, rx), 2, e.op);
      if e.negate {
        UnaryInfo(ISZERO);
        ApplyComputes(env, p, pc, s, b + 1, base, Then(env, e.op, Append(ry, rx)), 1, ISZERO);
      }
    }
  }

  lemma {:induction false} UnarySound(env: Env, p: seq<Item>, pc: nat, e: Expr, base: seq<Value>, w: World, fuel: nat)
    requires e.Unary? && Ready(env, p) && Translate(e).Some? && Lies(p, pc, Translate(e).value)
    ensures Correct(env, p, pc, e, base, w, fuel)
    decreases fuel, e, 2
  {
    hide Ready, Reaches, HaltsWith, Placed, IsUnaryOp, Computes, Apply, AddCode, ValidFunctional, InfoOf, Deposit;
    var n: nat :| Placed(p, pc, Translate(e).value, n);
    var x := Translate(e.first).value;
    PlacedOperation(p, pc, AddCode(EMPTY, x), e.op, n);
    AddCodeLies(p, pc, EMPTY, x, n);
    Sound(env, p, pc, e.first, base, w, fuel);
    UnaryInfo(e.op);
    OperationDeposit(e.op);
    CodeDeposit(EMPTY, x);
    ApplyComputes(env, p, pc, State(base, w), pc + |x.items|, base, Eval(env, e.first, w, fuel), 1, e.op);
  }

  // ----- sequences -----

  lemma {:induction false} PartsSound(env: Env, p: seq<Item>, pc: nat, c: Code, es: Exprs, n: nat, base: seq<Value>,
      w: World, fuel: nat)
    requires Ready(env, p) && AddSequence(c, es).Some? && Placed(p, pc, AddSequence(c, es).value, n)
    ensures Placed(p, pc, c, n)
    ensures var r := AddSequence(c, es).value;
            Computes(env, p, pc + |c.items|, State(base, w), pc + |r.items|, base, EvalSequence(env, es, w, fuel), r.deposit - c.deposit)
    decreases fuel, es, 1
  {
    hide Ready, Reaches, HaltsWith, Translate, Eval, AddTo, Placed, CodeAt, TrimmedAt, Keep;
    var a, s := pc + |c.items|, State(base, w);
    if es.Nil? {
      assert base + [] == base;
      ReachesItself(env, p, a, s);
    } else if es.tail.Nil? {
      AddCodeLies(p, pc, c, Translate(es.head).value, n);
      Sound(env, p, a, es.head, base, w, fuel);
    } else {
      var x := Translate(es.head).value;
      var d := AddTo(c, x, 0).value;
      var end := pc + |AddSequence(c, es).value.items|;
      var deposit := AddSequence(c, es).value.deposit - c.deposit;
      ToDeposit(c, x, 0);
      var r := Keep(Eval(env, es.head, w, fuel), 0);
      PartsSound(env, p, pc, d, es.tail, n, base, if r.Ends? then r.world else w, fuel);
      AddToLies(p, pc, c, x, 0, n);
      TrimmedSound(env, p, a, es.head, 0, base, w, fuel);
      var b := a + TrimmedSize(x, 0);
      if r.Ends? {
        assert base + r.values == base;
        ComputesAfter(env, p, a, s, b, State(base, r.world), end, base, EvalSequence(env, es.tail, r.world, fuel),
            deposit);
      } else {
        ComputesElsewhere(env, p, a, s, b, end, base, r, 0, deposit);
      }
    }
  }

  lemma {:induction false} SequenceSound(env: Env, p: seq<Item>, pc: nat, e: Expr, base: seq<Value>, w: World,
      fuel: nat)
    requires e.Sequence? && Ready(env, p) && Translate(e).Some? && Lies(p, pc, Translate(e).value)
    ensures Correct(env, p, pc, e, base, w, fuel)
    decreases fuel, e, 2
  {
    hide Ready, Placed, Computes, AddSequence, EvalSequence;
    var n: nat :| Placed(p, pc, Translate(e).value, n);
    PartsSound(env, p, pc, EMPTY, e.args, n, base, w, fuel);
  }

  // ----- branches -----

  lemma {:induction false} IfSound(env: Env, p: seq<Item>, pc: nat, e: Expr, base: seq<Value>, w: World, fuel: nat)
    requires e.If? && Ready(env, p) && Translate(e).Some? && Lies(p, pc, Translate(e).value)
    ensures Correct(env, p, pc, e, base, w, fuel)
    decreases fuel, e, 2
  {
    hide Ready, Placed, Computes, AddTo, AddCode, Eval, IfAt;
    var n: nat :| Placed(p, pc, Translate(e).value, n);
    IfLies(p, pc, Translate(e.condition).value, Translate(e.yes).value, Translate(e.no).value, n);
    IfDeposit(Translate(e.condition).value, Translate(e.yes).value, Translate(e.no).value);
    IfComputes(env, p, pc, e, pc + |Translate(e).value.items| - 1, base, w, fuel);
  }

  lemma {:induction false} IfDeposit(c: Code, yes: Code, no: Code)
    ensures TranslateIf(Some(c), Some(yes), Some(no)).Some? ==>
              TranslateIf(Some(c), Some(yes), Some(no)).value.deposit == Min(yes.deposit, no.deposit)
  {
    hide AddTo, AddCode, AddJump, AddJumpI, Deposit;
    if TranslateIf(Some(c), Some(yes), Some(no)).Some? {
      var least := Min(yes.deposit, no.deposit);
      var a := AddCode(EMPTY, c);
      var b := AddTo(AddJumpI(WithTag(a), a.usedTags), no, least).value;
      var d := AddItem(AddJump(WithTag(b), b.usedTags).(deposit := 0), Mark(a.usedTags));
      ToDeposit(d, yes, least);
      ItemDeposits(a.usedTags);
      ItemDeposits(b.usedTags);
    }
  }

  lemma {:induction false} IfComputes(env: Env, p: seq<Item>, pc: nat, e: Expr, end: nat, base: seq<Value>, w: World,
      fuel: nat)
    requires e.If? && Ready(env, p) && Translate(e.condition).Some? && Translate(e.yes).Some? && Translate(e.no).Some?
    requires Translate(e.condition).value.deposit == 1
    requires IfAt(p, pc, Translate(e.condition).value, Translate(e.yes).value, Translate(e.no).value, end)
    ensures Computes(env, p, pc, State(base, w), end + 1, base, Eval(env, e, w, fuel),
                     Min(Translate(e.yes).value.deposit, Translate(e.no).value.deposit))
    decreases fuel, e, 1
  {
    hide Ready, Lies, Translate, TrimmedAt, Computes, BranchAt, JumpAt, Reaches, Keep;
    var c, yes, no, s := Translate(e.condition).value, Translate(e.yes).value, Translate(e.no).value, State(base, w);
    var least := Min(yes.deposit, no.deposit);
    var j := pc + |c.items|;
    var m := j + 2 + TrimmedSize(no, least);
    Sound(env, p, pc, e.condition, base, w, fuel);
    var x := Eval(env, e.condition, w, fuel);
    if !x.Ends? {
      ComputesElsewhere(env, p, pc, s, j, end + 1, base, x, 1, least);
    } else if !IsNumber(x.values) {
      WrongComputes(env, p, pc, s, end + 1, base, least);
    } else {
      BranchReaches(env, p, pc, s, j, false, m + 2, base, x);
      var s' := State(base, x.world);
      if LllMeaning.Holds(x.values) {
        TrimmedSound(env, p, m + 3, e.yes, least, base, x.world, fuel);
        var r := Keep(Eval(env, e.yes, x.world, fuel), least);
        ComputesPastTag(env, p, m + 3, s', end, base, r, least);
        ComputesAfter(env, p, pc, s, m + 3, s', end + 1, base, r, least);
      } else {
        TrimmedSound(env, p, j + 2, e.no, least, base, x.world, fuel);
        var r := Keep(Eval(env, e.no, x.world, fuel), least);
        ComputesThenJumps(env, p, j + 2, s', m, end, base, r, least);
        ComputesAfter(env, p, pc, s, j + 2, s', end + 1, base, r, least);
      }
    }
  }

  lemma {:induction false} WrongComputes(env: Env, p: seq<Item>, pc: nat, s: State, c: nat, base: seq<Value>, d: int)
    ensures Computes(env, p, pc, s, c, base, Wrong, d)
  {
  }

  lemma {:induction false} ComputesPastTag(env: Env, p: seq<Item>, pc: nat, s: State, end: nat, base: seq<Value>,
      r: Result, d: int)
    requires Computes(env, p, pc, s, end, base, r, d) && end < |p| && IsTag(p[end])
    ensures Computes(env, p, pc, s, end + 1, base, r, d)
  {
    hide Computes, Reaches;
    if r.Ends? { TagReaches(env, p, end, State(base + r.values, r.world)); }
    ComputesBefore(env, p, pc, s, end, end + 1, base, r, d);
  }

  lemma {:induction false} ComputesThenJumps(env: Env, p: seq<Item>, pc: nat, s: State, b: nat, k: nat,
      base: seq<Value>, r: Result, d: int)
    requires Ready(env, p) && Computes(env, p, pc, s, b, base, r, d) && JumpAt(p, b, JUMP, k)
    ensures Computes(env, p, pc, s, k + 1, base, r, d)
  {
    hide Computes, Reaches, Ready, JumpAt;
    if r.Ends? { JumpRuns(env, p, b, State(base + r.values, r.world), k); }
    ComputesBefore(env, p, pc, s, b, k + 1, base, r, d);
  }

  lemma {:induction false} WhenSound(env: Env, p: seq<Item>, pc: nat, e: Expr, base: seq<Value>, w: World, fuel: nat)
    requires e.When? && Ready(env, p) && Translate(e).Some? && Lies(p, pc, Translate(e).value)
    ensures Correct(env, p, pc, e, base, w, fuel)
    decreases fuel, e, 2
  {
    hide Ready, Placed, Computes, AddTo, AddCode, Eval, WhenAt;
    var n: nat :| Placed(p, pc, Translate(e).value, n);
    WhenLies(p, pc, e.whenTrue, Translate(e.condition).value, Translate(e.body).value, n);
    WhenDeposit(e.whenTrue, Translate(e.condition).value, Translate(e.body).value);
    WhenComputes(env, p, pc, e, pc + |Translate(e).value.items| - 1, base, w, fuel);
  }

  lemma {:induction false} WhenDeposit(whenTrue: bool, c: Code, body: Code)
    ensures TranslateWhen(whenTrue, Some(c), Some(body)).Some? ==>
              TranslateWhen(whenTrue, Some(c), Some(body)).value.deposit == 0
  {
    hide AddTo, AddCode, AddJumpI, Deposit;
    if TranslateWhen(whenTrue, Some(c), Some(body)).Some? {
      var a := AddCode(EMPTY, c);
      BranchDeposit(a, whenTrue, a.usedTags);
      CodeDeposit(EMPTY, c);
      ToDeposit(AddBranch(a, whenTrue, a.usedTags), body, 0);
      ItemDeposits(a.usedTags);
    }
  }

  lemma {:induction false} BranchDeposit(c: Code, negate: bool, t: nat)
    ensures AddBranch(c, negate, t).deposit == c.deposit - 1
  {
    hide AddJumpI, Deposit;
    JumpDeposit(WithTag(if negate then AddItem(c, Operation(ISZERO)) else c), t);
    ItemDeposits(t);
  }

  lemma {:induction false} WhenComputes(env: Env, p: seq<Item>, pc: nat, e: Expr, end: nat, base: seq<Value>, w: World,
      fuel: nat)
    requires e.When? && Ready(env, p) && Translate(e.condition).Some? && Translate(e.body).Some?
    requires Translate(e.condition).value.deposit == 1
    requires WhenAt(p, pc, e.whenTrue, Translate(e.condition).value, Translate(e.body).value, end)
    ensures Computes(env, p, pc, State(base, w), end + 1, base, Eval(env, e, w, fuel), 0)
    decreases fuel, e, 1
  {
    hide Ready, Lies, Translate, TrimmedAt, Computes, BranchAt, Reaches, Keep, AfterBranch;
    var c, body, s := Translate(e.condition).value, Translate(e.body).value, State(base, w);
    var j := pc + |c.items|;
    var m := AfterBranch(j, e.whenTrue);
    Sound(env, p, pc, e.condition, base, w, fuel);
    var x := Eval(env, e.condition, w, fuel);
    if !x.Ends? {
      ComputesElsewhere(env, p, pc, s, j, end + 1, base, x, 1, 0);
    } else if !IsNumber(x.values) {
      WrongComputes(env, p, pc, s, end + 1, base, 0);
    } else {
      BranchReaches(env, p, pc, s, j, e.whenTrue, end, base, x);
      var s' := State(base, x.world);
      if LllMeaning.Holds(x.values) == e.whenTrue {
        TrimmedSound(env, p, m, e.body, 0, base, x.world, fuel);
        var r := Keep(Eval(env, e.body, x.world, fuel), 0);
        ComputesPastTag(env, p, m, s', end, base, r, 0);
        ComputesAfter(env, p, pc, s, m, s', end + 1, base, r, 0);
      } else {
        NothingComputes(env, p, pc, s, end + 1, base, x.world);
      }
    }
  }

  lemma {:induction false} NothingComputes(env: Env, p: seq<Item>, pc: nat, s: State, c: nat, base: seq<Value>,
      w: World)
    requires Reaches(env, p, pc, s, c, State(base, w))
    ensures Computes(env, p, pc, s, c, base, Ends([], w), 0)
  {
    hide Reaches;
    assert base + [] == base;
  }

  // ----- loops -----

  lemma {:induction false} LoopSound(env: Env, p: seq<Item>, pc: nat, e: Expr, base: seq<Value>, w: World, fuel: nat)
    requires e.Loop? && Ready(env, p) && Translate(e).Some? && Lies(p, pc, Translate(e).value)
    ensures Correct(env, p, pc, e, base, w, fuel)
    decreases fuel, e, 2
  {
    hide Ready, Placed, Computes, AddLoop, EvalLoop, Reaches, LoopAt;
    LoopParts(e);
    var n: nat :| Placed(p, pc, Translate(e).value, n);
    LoopLies(p, pc, EMPTY, e.whileTrue, Translate(e.condition).value, Translate(e.body).value, n);
    LoopDeposit(EMPTY, e.whileTrue, Translate(e.condition).value, Translate(e.body).value);
    var end := pc + |Translate(e).value.items| - 1;
    LoopComputes(env, p, pc, e, end, base, w, fuel);
    LoopStarts(p, pc, e.whileTrue, Translate(e.condition).value, Translate(e.body).value, end);
    TagReaches(env, p, pc, State(base, w));
    ComputesAfter(env, p, pc, State(base, w), pc + 1, State(base, w), end + 1, base, EvalLoop(env, e, w, fuel), 0);
  }

  lemma {:induction false} LoopStarts(p: seq<Item>, pc: nat, negate: bool, c: Code, body: Code, end: nat)
    requires LoopAt(p, pc, negate, c, body, end)
    ensures pc < |p| && IsTag(p[pc])
  {
    hide Lies, BranchAt, JumpAt, TrimmedAt;
  }

  lemma {:induction false} LoopParts(e: Expr)
    requires e.Loop? && Translate(e).Some?
    ensures Translate(e.condition).Some? && Translate(e.body).Some? && Translate(e.condition).value.deposit == 1
    ensures |Translate(e).value.items| > 0
  {
    hide AddTo, AddCode, AddJump, AddJumpI;
  }

  lemma {:induction false} LoopDeposit(i: Code, whileTrue: bool, c: Code, body: Code)
    ensures AddLoop(i, whileTrue, c, body).Some? ==>
              AddLoop(i, whileTrue, c, body).value.deposit == i.deposit + c.deposit - 1
  {
    hide AddTo, AddCode, AddJump, AddJumpI, Deposit, Mark;
    if AddLoop(i, whileTrue, c, body).Some? {
      var start := AddItem(WithTag(i), Mark(i.usedTags));
      var a := AddCode(start, c);
      var h := AddBranch(a, whileTrue, a.usedTags);
      BranchDeposit(a, whileTrue, a.usedTags);
      CodeDeposit(start, c);
      ToDeposit(h, body, 0);
      JumpDeposit(AddTo(h, body, 0).value, i.usedTags);
      ItemDeposits(i.usedTags);
      ItemDeposits(a.usedTags);
    }
  }

  lemma {:induction false} LoopComputes(env: Env, p: seq<Item>, pc: nat, e: Expr, end: nat, base: seq<Value>, w: World,
      fuel: nat)
    requires e.Loop? && Ready(env, p) && Translate(e.condition).Some? && Translate(e.body).Some?
    requires Translate(e.condition).value.deposit == 1
    requires LoopAt(p, pc, e.whileTrue, Translate(e.condition).value, Translate(e.body).value, end)
    ensures Computes(env, p, pc + 1, State(base, w), end + 1, base, EvalLoop(env, e, w, fuel), 0)
    decreases fuel, e, 1
  {
    hide Ready, Lies, Translate, TrimmedAt, Computes, BranchAt, JumpAt, Reaches, Keep, AfterBranch, Eval;
    var c, body, s := Translate(e.condition).value, Translate(e.body).value, State(base, w);
    var j := pc + 1 + |c.items|;
    var m := AfterBranch(j, e.whileTrue);
    Sound(env, p, pc + 1, e.condition, base, w, fuel);
    var x := Eval(env, e.condition, w, fuel);
    if !x.Ends? {
      ComputesElsewhere(env, p, pc + 1, s, j, end + 1, base, x, 1, 0);
    } else if !IsNumber(x.values) {
      WrongComputes(env, p, pc + 1, s, end + 1, base, 0);
    } else {
      BranchReaches(env, p, pc + 1, s, j, e.whileTrue, end, base, x);
      var s' := State(base, x.world);
      if LllMeaning.Holds(x.values) != e.whileTrue {
        NothingComputes(env, p, pc + 1, s, end + 1, base, x.world);
      } else if fuel == 0 {
        WrongComputes(env, p, pc + 1, s, end + 1, base, 0);
      } else {
        TrimmedSound(env, p, m, e.body, 0, base, x.world, fuel - 1);
        var r := Keep(Eval(env, e.body, x.world, fuel - 1), 0);
        ComputesThenJumps(env, p, m, s', m + TrimmedSize(body, 0), pc, base, r, 0);
        if r.Ends? { LoopComputes(env, p, pc, e, end, base, r.world, fuel - 1); }
        ComputesThenNothing(env, p, m, s', pc + 1, end + 1, base, r,
            if r.Ends? then EvalLoop(env, e, r.world, fuel - 1) else r);
        ComputesAfter(env, p, pc + 1, s, m, s', end + 1, base,
            if r.Ends? then EvalLoop(env, e, r.world, fuel - 1) else r, 0);
      }
    }
  }

  /** A part that leaves nothing, then another. */
  lemma {:induction false} ComputesThenNothing(env: Env, p: seq<Item>, a: nat, s: State, b: nat, c: nat,
      base: seq<Value>, x: Result, y: Result)
    requires Computes(env, p, a, s, b, base, x, 0)
    requires if x.Ends? then Computes(env, p, b, State(base, x.world), c, base, y, 0) else y == x
    ensures Computes(env, p, a, s, c, base, y, 0)
  {
    hide Reaches, HaltsWith;
    if x.Ends? {
      assert base + x.values == base;
      ComputesAfter(env, p, a, s, b, State(base, x.world), c, base, y, 0);
    }
  }

  lemma {:induction false} ForSound(env: Env, p: seq<Item>, pc: nat, e: Expr, base: seq<Value>, w: World, fuel: nat)
    requires e.For? && Ready(env, p) && Translate(e).Some? && Lies(p, pc, Translate(e).value)
    ensures Correct(env, p, pc, e, base, w, fuel)
    decreases fuel, e, 2
  {
    hide Ready, Placed, Computes, TranslateFor, EvalFor, Reaches, ForAt, Keep;
    ForParts(e);
    var n: nat :| Placed(p, pc, Translate(e).value, n);
    var init := Translate(e.init).value;
    ForLies(p, pc, init, Translate(e.condition).value, Translate(e.post).value, Translate(e.body).value, n);
    ForDeposit(init, Translate(e.condition).value, Translate(e.post).value, Translate(e.body).value);
    var end, k, s := pc + |Translate(e).value.items| - 1, pc + TrimmedSize(init, 0), State(base, w);
    ForStarts(p, pc, init, Translate(e.condition).value, Translate(e.post).value, Translate(e.body).value, end);
    TrimmedSound(env, p, pc, e.init, 0, base, w, fuel);
    var i := Keep(Eval(env, e.init, w, fuel), 0);
    ComputesPastTag(env, p, pc, s, k, base, i, 0);
    if i.Ends? { ForComputes(env, p, pc, e, end, base, i.world, fuel); }
    ComputesThenNothing(env, p, pc, s, k + 1, end + 1, base, i, Eval(env, e, w, fuel));
  }

  lemma {:induction false} ForStarts(p: seq<Item>, pc: nat, init: Code, c: Code, post: Code, body: Code, end: nat)
    requires ForAt(p, pc, init, c, post, body, end)
    ensures var k := pc + TrimmedSize(init, 0); TrimmedAt(p, pc, init, 0) && k < |p| && IsTag(p[k])
  {
    hide Lies, BranchAt, JumpAt, TrimmedAt;
  }

  lemma {:induction false} ForParts(e: Expr)
    requires e.For? && Translate(e).Some?
    ensures Translate(e.init).Some? && Translate(e.condition).Some? && Translate(e.post).Some?
    ensures Translate(e.body).Some?
    ensures Translate(e.condition).value.deposit == 1 && |Translate(e).value.items| > 0
  {
    hide AddTo, AddCode, AddJump, AddJumpI;
  }

  lemma {:induction false} ForDeposit(init: Code, c: Code, post: Code, body: Code)
    ensures TranslateFor(Some(init), Some(c), Some(post), Some(body)).Some? ==>
              TranslateFor(Some(init), Some(c), Some(post), Some(body)).value.deposit == 0
  {
    hide AddTo, AddCode, AddJump, AddJumpI, Deposit, Mark;
    if TranslateFor(Some(init), Some(c), Some(post), Some(body)).Some? {
      var i := AddTo(EMPTY, init, 0).value;
      var start := AddItem(WithTag(i), Mark(i.usedTags));
      var a := AddCode(start, c);
      var h := AddBranch(a, true, a.usedTags);
      var b := AddTo(h, body, 0).value;
      ToDeposit(EMPTY, init, 0);
      BranchDeposit(a, true, a.usedTags);
      CodeDeposit(start, c);
      ToDeposit(h, body, 0);
      ToDeposit(b, post, 0);
      JumpDeposit(AddTo(b, post, 0).value, i.usedTags);
      ItemDeposits(i.usedTags);
      ItemDeposits(a.usedTags);
    }
  }

  lemma {:induction false} ForComputes(env: Env, p: seq<Item>, pc: nat, e: Expr, end: nat, base: seq<Value>, w: World,
      fuel: nat)
    requires e.For? && Ready(env, p) && Translate(e.init).Some? && Translate(e.condition).Some?
    requires Translate(e.post).Some? && Translate(e.body).Some?
    requires Translate(e.condition).value.deposit == 1
    requires ForAt(p, pc, Translate(e.init).value, Translate(e.condition).value, Translate(e.post).value,
                   Translate(e.body).value, end)
    ensures Computes(env, p, pc + TrimmedSize(Translate(e.init).value, 0) + 1, State(base, w), end + 1, base,
                     EvalFor(env, e, w, fuel), 0)
    decreases fuel, e, 1
  {
    hide Ready, Lies, Translate, TrimmedAt, Computes, BranchAt, JumpAt, Reaches, Keep, Eval;
    var c, body, post, s := Translate(e.condition).value, Translate(e.body).value, Translate(e.post).value, State(base,
        w);
    var k := pc + TrimmedSize(Translate(e.init).value, 0);
    var j := k + 1 + |c.items|;
    Sound(env, p, k + 1, e.condition, base, w, fuel);
    var x := Eval(env, e.condition, w, fuel);
    if !x.Ends? {
      ComputesElsewhere(env, p, k + 1, s, j, end + 1, base, x, 1, 0);
    } else if !IsNumber(x.values) {
      WrongComputes(env, p, k + 1, s, end + 1, base, 0);
    } else {
      BranchReaches(env, p, k + 1, s, j, true, end, base, x);
      var s' := State(base, x.world);
      if !LllMeaning.Holds(x.values) {
        NothingComputes(env, p, k + 1, s, end + 1, base, x.world);
      } else if fuel == 0 {
        WrongComputes(env, p, k + 1, s, end + 1, base, 0);
      } else {
        RoundComputes(env, p, pc, e, end, base, x.world, fuel);
        ComputesAfter(env, p, k + 1, s, j + 3, s', end + 1, base, Round(env, e, x.world, fuel), 0);
      }
    }
  }

  /** The body, the step and the rest of a FOR loop. */
  ghost function Round(env: Env, e: Expr, w: World, fuel: nat): Result
    requires e.For? && fuel > 0
  {
    var b := Keep(Eval(env, e.body, w, fuel - 1), 0);
    if !b.Ends? then b
    else
      var q := Keep(Eval(env, e.post, b.world, fuel - 1), 0);
      if q.Ends? then EvalFor(env, e, q.world, fuel - 1) else q
  }

  lemma {:induction false} RoundComputes(env: Env, p: seq<Item>, pc: nat, e: Expr, end: nat, base: seq<Value>,
      w: World, fuel: nat)
    requires fuel > 0
    requires e.For? && Ready(env, p) && Translate(e.init).Some? && Translate(e.condition).Some?
    requires Translate(e.post).Some? && Translate(e.body).Some?
    requires Translate(e.condition).value.deposit == 1
    requires ForAt(p, pc, Translate(e.init).value, Translate(e.condition).value, Translate(e.post).value,
                   Translate(e.body).value, end)
    ensures var j := pc + TrimmedSize(Translate(e.init).value, 0) + 1 + |Translate(e.condition).value.items|;
            Computes(env, p, j + 3, State(base, w), end + 1, base, Round(env, e, w, fuel), 0)
    decreases fuel, e, 0
  {
    hide Ready, Lies, Translate, TrimmedAt, Computes, BranchAt, JumpAt, Reaches, Keep, Eval, EvalFor;
    var c, body, post, s := Translate(e.condition).value, Translate(e.body).value, Translate(e.post).value, State(base,
        w);
    var k := pc + TrimmedSize(Translate(e.init).value, 0);
    var j := k + 1 + |c.items|;
    var m := j + 3 + TrimmedSize(body, 0);
    TrimmedSound(env, p, j + 3, e.body, 0, base, w, fuel - 1);
    var b := Keep(Eval(env, e.body, w, fuel - 1), 0);
    if b.Ends? {
      TrimmedSound(env, p, m, e.post, 0, base, b.world, fuel - 1);
      var q := Keep(Eval(env, e.post, b.world, fuel - 1), 0);
      ComputesThenJumps(env, p, m, State(base, b.world), m + TrimmedSize(post, 0), k, base, q, 0);
      if q.Ends? { ForComputes(env, p, pc, e, end, base, q.world, fuel - 1); }
      ComputesThenNothing(env, p, m, State(base, b.world), k + 1, end + 1, base, q, Round(env, e, w, fuel));
    }
    ComputesThenNothing(env, p, j + 3, s, m, end + 1, base, b, Round(env, e, w, fuel));
  }

  // ----- SWITCH -----

  lemma {:induction false} CasesSound(env: Env, p: seq<Item>, pc: nat, c: Code, cases: Cases, n: nat, end: nat,
      deposit: int, base: seq<Value>, w: World, fuel: nat)
    requires Ready(env, p) && AddConditions(c, cases).Some? && Placed(p, pc, AddConditions(c, cases).value.code, n)
    requires BodiesAt(p, cases, AddConditions(c, cases).value.tags, n, end, deposit)
    requires (cases.Case? ==> end < |p| && IsTag(p[end]))
    ensures Placed(p, pc, c, n)
    ensures match EvalCases(env, cases, w, fuel)
            case Chosen(r) => Computes(env, p, pc + |c.items|, State(base, w), end + 1, base, r, deposit)
            case Unmatched(w') => Reaches(env, p, pc + |c.items|, State(base, w), pc + |AddConditions(c, cases).value.code.items|, State(base, w'))
    decreases fuel, cases, 1
  {
    hide Ready, Lies, Translate, Placed, Computes, BranchAt, JumpAt, Reaches, Eval, AddCode, AddJumpI, BodyAt;
    var s, b := State(base, w), pc + |c.items|;
    if cases.NoCase? {
      ReachesItself(env, p, b, s);
    } else {
      var x := Translate(cases.condition).value;
      var a := AddCode(c, x);
      var h := AddJumpI(WithTag(a), a.usedTags);
      var tags := AddConditions(c, cases).value.tags;
      var rest := AddConditions(h, cases.rest).value;
      assert tags[1..] == rest.tags;
      var k: nat :| BodyAt(p, cases.body, tags[0], n, end, deposit, k);
      var r := Eval(env, cases.condition, w, fuel);
      CasesSound(env, p, pc, h, cases.rest, n, end, deposit, base, if r.Ends? then r.world else w, fuel);
      CaseLies(p, pc, c, x, n, k, cases.body, end, deposit);
      var j := b + |x.items|;
      Sound(env, p, b, cases.condition, base, w, fuel);
      if !r.Ends? {
        ComputesElsewhere(env, p, b, s, j, end + 1, base, r, 1, deposit);
      } else if !IsNumber(r.values) {
        WrongComputes(env, p, b, s, end + 1, base, deposit);
      } else {
        BranchReaches(env, p, b, s, j, false, k, base, r);
        var s' := State(base, r.world);
        if LllMeaning.Holds(r.values) {
          BodySound(env, p, k, cases.body, tags[0], n, end, deposit, base, r.world, fuel);
          ComputesAfter(env, p, b, s, k + 1, s', end + 1, base, Eval(env, cases.body, r.world, fuel), deposit);
        } else {
          match EvalCases(env, cases.rest, r.world, fuel) {
            case Chosen(y) => ComputesAfter(env, p, b, s, j + 2, s', end + 1, base, y, deposit);
            case Unmatched(w') => ReachesOn(env, p, b, s, j + 2, s', pc + |rest.code.items|, State(base, w'));
          }
        }
      }
    }
  }

  lemma {:induction false} CaseLies(p: seq<Item>, pc: nat, c: Code, x: Code, n: nat, k: nat, body: Expr, end: nat,
      deposit: int)
    requires var a := AddCode(c, x);
             Placed(p, pc, AddJumpI(WithTag(a), a.usedTags), n) && BodyAt(p, body, a.usedTags, n, end, deposit, k)
    ensures Placed(p, pc, c, n) && Lies(p, pc + |c.items|, x) && BranchAt(p, pc + |c.items| + |x.items|, false, k)
    ensures var a := AddCode(c, x); |AddJumpI(WithTag(a), a.usedTags).items| == |c.items| + |x.items| + 2
  {
    hide CodeAt, Lies, Translate, TagOf, AddCode, AddJumpI, JumpAt;
    var a := AddCode(c, x);
    JumpLies(p, pc, WithTag(a), a.usedTags, true, n, k);
    assert Placed(p, pc, a, n);
    AddCodeLies(p, pc, c, x, n);
    PlainBranch(p, pc + |a.items|, k);
  }

  lemma {:induction false} BodySound(env: Env, p: seq<Item>, k: nat, body: Expr, tag: nat, n: nat, end: nat,
      deposit: int, base: seq<Value>, w: World, fuel: nat)
    requires Ready(env, p) && BodyAt(p, body, tag, n, end, deposit, k) && end < |p| && IsTag(p[end])
    ensures Computes(env, p, k + 1, State(base, w), end + 1, base, Eval(env, body, w, fuel), deposit)
    decreases fuel, body, 4
  {
    hide Ready, Lies, Translate, Computes, JumpAt, Reaches, Eval;
    Sound(env, p, k + 1, body, base, w, fuel);
    var b, s, r := k + 1 + |Translate(body).value.items|, State(base, w), Eval(env, body, w, fuel);
    if b == end {
      ComputesPastTag(env, p, k + 1, s, end, base, r, deposit);
    } else {
      ComputesThenJumps(env, p, k + 1, s, b, end, base, r, deposit);
    }
  }

  lemma {:induction false} SwitchSound(env: Env, p: seq<Item>, pc: nat, e: Expr, base: seq<Value>, w: World, fuel: nat)
    requires e.Switch? && Ready(env, p) && Translate(e).Some? && Lies(p, pc, Translate(e).value)
    ensures Correct(env, p, pc, e, base, w, fuel)
    decreases fuel, e, 2
  {
    hide Ready, Placed, Computes, AddCode, Eval, AddConditions, AddBodies, SwitchAt, TranslateSwitch;
    var n: nat :| Placed(p, pc, Translate(e).value, n);
    var d := if e.fallback.Nil? then EMPTY else Translate(e.fallback.head).value;
    SwitchLies(p, pc, e.cases, d, e.fallback.Cons?, n);
    SwitchDeposit(e.cases, d, e.fallback.Cons?);
    var size := |Translate(e).value.items|;
    SwitchComputes(env, p, pc, e, n, if e.cases.Case? then pc + size - 1 else pc + size, base, w, fuel);
  }

  lemma {:induction false} SwitchDeposit(cases: Cases, fallback: Code, hasFallback: bool)
    ensures TranslateSwitch(cases, fallback, hasFallback).Some? ==>
              TranslateSwitch(cases, fallback, hasFallback).value.deposit == if hasFallback then fallback.deposit else 0
  {
    hide AddConditions, AddBodies;
  }

  lemma {:induction false} SwitchComputes(env: Env, p: seq<Item>, pc: nat, e: Expr, n: nat, end: nat, base: seq<Value>,
      w: World, fuel: nat)
    requires e.Switch? && Ready(env, p) && (e.fallback.Cons? ==> Translate(e.fallback.head).Some?)
    requires SwitchAt(p, pc, e.cases, if e.fallback.Nil? then EMPTY else Translate(e.fallback.head).value,
                      e.fallback.Cons?, n, end)
    ensures Computes(env, p, pc, State(base, w), if e.cases.Case? then end + 1 else end, base, Eval(env, e, w, fuel),
                     if e.fallback.Nil? then 0 else Translate(e.fallback.head).value.deposit)
    decreases fuel, e, 1
  {
    hide Ready, Lies, Translate, Placed, Computes, JumpAt, Reaches, EvalCases, AddConditions, BodiesAt;
    var deposit := if e.fallback.Nil? then 0 else Translate(e.fallback.head).value.deposit;
    var m, s := pc + |AddConditions(EMPTY, e.cases).value.code.items|, State(base, w);
    if e.cases.NoCase? { NoBodies(p, AddConditions(EMPTY, e.cases).value.tags, n, end, deposit); }
    CasesSound(env, p, pc, EMPTY, e.cases, n, end, deposit, base, w, fuel);
    var choice := EvalCases(env, e.cases, w, fuel);
    if choice.Chosen? {
      ChosenCase(env, e.cases, w, fuel);
    } else {
      var r, s' := if e.fallback.Nil? then Ends([], choice.world) else Eval(env, e.fallback.head, choice.world, fuel), State(base, choice.world);
      var j := if e.fallback.Nil? then m else m + |Translate(e.fallback.head).value.items|;
      if e.fallback.Nil? {
        ReachesItself(env, p, m, s');
        NothingComputes(env, p, m, s', m, base, choice.world);
      } else {
        Sound(env, p, m, e.fallback.head, base, choice.world, fuel);
      }
      if e.cases.Case? { ComputesThenJumps(env, p, m, s', j, end, base, r, deposit); }
      ComputesAfter(env, p, pc, s, m, s', if e.cases.Case? then end + 1 else end, base, r, deposit);
    }
  }

  lemma {:induction false} NoBodies(p: seq<Item>, tags: seq<nat>, n: nat, end: nat, deposit: int)
    ensures BodiesAt(p, NoCase, tags, n, end, deposit)
  {
  }

  lemma {:induction false} ChosenCase(env: Env, cases: Cases, w: World, fuel: nat)
    requires EvalCases(env, cases, w, fuel).Chosen?
    ensures cases.Case?
  {
  }

  // ----- && and || -----

  /** The value left by an early way out. */
  function Early(isOr: bool): Value { Num(if isOr then 1 else 0) }

  lemma {:induction false} ChainSound(env: Env, p: seq<Item>, pc: nat, isOr: bool, c: Code, es: Exprs, n: nat,
      end: nat, base: seq<Value>, w: World, fuel: nat)
    requires Ready(env, p) && es.Cons? && AllOne(es) && AddChain(isOr, c, es).Some?
    requires Placed(p, pc, AddChain(isOr, c, es).value, n)
    requires end == pc + |AddChain(isOr, c, es).value.items| - 1 && end >= 0 && end < |p|
    requires p[end] == TagItem(TagOf(1, n))
    ensures Placed(p, pc, c, n)
    ensures Computes(env, p, pc + |c.items|, State(base + [Early(isOr)], w), end + 1, base,
                     EvalChain(env, isOr, es, w, fuel), 1)
    decreases fuel, es, 1
  {
    hide Ready, Lies, Translate, Placed, Computes, BranchAt, Reaches, Eval, AddCode, AddJumpI, TagOf, IsNumber;
    var s, b, x := State(base + [Early(isOr)], w), pc + |c.items|, Translate(es.head).value;
    if es.tail.Nil? {
      LastSound(env, p, pc, isOr, c, es.head, n, base, w, fuel);
    } else {
      var a := AddCode(c, x);
      var h := AddJumpI(if isOr then a else AddItem(a, Operation(ISZERO)), 1);
      var r := Eval(env, es.head, w, fuel);
      ChainSound(env, p, pc, isOr, h, es.tail, n, end, base, if r.Ends? then r.world else w, fuel);
      LinkLies(p, pc, isOr, c, x, n, end);
      var j, over := b + |x.items|, base + [Early(isOr)];
      Sound(env, p, b, es.head, over, w, fuel);
      if !r.Ends? {
        ElsewhereOver(env, p, b, s, j, end + 1, over, base, r);
      } else if !IsNumber(r.values) {
        WrongComputes(env, p, b, s, end + 1, base, 1);
      } else {
        BranchReaches(env, p, b, s, j, !isOr, end, over, r);
        var s' := State(over, r.world);
        if LllMeaning.Holds(r.values) == isOr {
          EarlyComputes(env, p, b, s, end + 1, base, isOr, r.world);
        } else {
          ComputesAfter(env, p, b, s, AfterBranch(j, !isOr), s', end + 1, base,
              EvalChain(env, isOr, es.tail, r.world, fuel), 1);
        }
      }
    }
  }

  lemma {:induction false} EarlyComputes(env: Env, p: seq<Item>, b: nat, s: State, c: nat, base: seq<Value>,
      isOr: bool, w: World)
    requires Reaches(env, p, b, s, c, State(base + [Early(isOr)], w))
    ensures Computes(env, p, b, s, c, base, Ends([Early(isOr)], w), 1)
  {
    hide Reaches;
  }

  lemma {:induction false} ElsewhereOver(env: Env, p: seq<Item>, pc: nat, s: State, b: nat, c: nat, over: seq<Value>,
      base: seq<Value>, x: Result)
    requires Computes(env, p, pc, s, b, over, x, 1) && !x.Ends?
    ensures Computes(env, p, pc, s, c, base, x, 1)
  {
    hide HaltsWith, Reaches;
  }

  lemma {:induction false} LinkLies(p: seq<Item>, pc: nat, isOr: bool, c: Code, x: Code, n: nat, k: nat)
    requires var a := AddCode(c, x); Placed(p, pc, AddJumpI(if isOr then a else AddItem(a, Operation(ISZERO)), 1), n)
    requires k < |p| && p[k] == TagItem(TagOf(1, n))
    ensures Placed(p, pc, c, n) && Lies(p, pc + |c.items|, x) && BranchAt(p, pc + |c.items| + |x.items|, !isOr, k)
    ensures var a := AddCode(c, x);
            |AddJumpI(if isOr then a else AddItem(a, Operation(ISZERO)), 1).items| == AfterBranch(|c.items| + |x.items|, !isOr)
  {
    hide CodeAt, Lies, TagOf, AddCode, BranchAt;
    var a := AddCode(c, x);
    assert Placed(p, pc, AddBranch(a, !isOr, 1), n);
    BranchLies(p, pc, a, !isOr, 1, n, k);
    AddCodeLies(p, pc, c, x, n);
  }

  lemma {:induction false} MarkedSound(env: Env, p: seq<Item>, pc: nat, c: Code, e: Expr, t: nat, n: nat,
      base: seq<Value>, w: World, fuel: nat)
    requires Ready(env, p) && Translate(e).Some? && Placed(p, pc, AddLast(c, Translate(e).value, t), n)
    ensures Placed(p, pc, c, n)
    ensures Computes(env, p, pc + |c.items|, State(base, w), pc + |AddLast(c, Translate(e).value, t).items|, base,
                     Eval(env, e, w, fuel), Translate(e).value.deposit)
    decreases fuel, e, 4
  {
    hide Ready, Lies, Translate, Placed, Computes, Eval, AddCode, TagOf, Mark;
    var b, x := pc + |c.items|, Translate(e).value;
    PlacedMark(p, pc, AddCode(c, x), t, n);
    AddCodeLies(p, pc, c, x, n);
    Sound(env, p, b, e, base, w, fuel);
    ComputesPastTag(env, p, b, State(base, w), b + |x.items|, base, Eval(env, e, w, fuel), x.deposit);
  }

  lemma {:induction false} LastDeposit(c: Code, d: Code, t: nat)
    ensures AddLast(c, d, t).deposit == c.deposit + d.deposit
    ensures var r := AddLast(c, d, t).items; |r| > 0 && r[|r| - 1] == Mark(t)
  {
    hide Deposit, Mark;
    ItemDeposits(t);
  }

  /** The last operand replaces the early value. */
  lemma {:induction false} LastSound(env: Env, p: seq<Item>, pc: nat, isOr: bool, c: Code, e: Expr, n: nat,
      base: seq<Value>, w: World, fuel: nat)
    requires Ready(env, p) && Translate(e).Some? && Translate(e).value.deposit == 1
    requires Placed(p, pc, AddLast(AddItem(c, Operation(POP)), Translate(e).value, 1), n)
    ensures Placed(p, pc, c, n)
    ensures Computes(env, p, pc + |c.items|, State(base + [Early(isOr)], w),
                     pc + |AddLast(AddItem(c, Operation(POP)), Translate(e).value, 1).items|, base, Eval(env, e, w, fuel), 1)
    decreases fuel, e, 5
  {
    hide Ready, Lies, Translate, Placed, Computes, Reaches, Eval, StepItem, AddLast;
    var s, b := State(base + [Early(isOr)], w), pc + |c.items|;
    var d := AddItem(c, Operation(POP));
    MarkedSound(env, p, pc, d, e, 1, n, base, w, fuel);
    PlacedOperation(p, pc, c, POP, n);
    PopTop(env, base, [Early(isOr)], w);
    assert base + [] == base;
    ItemReaches(env, p, b, s, State(base, w));
    ComputesAfter(env, p, b, s, b + 1, State(base, w), pc + |AddLast(d, Translate(e).value, 1).items|, base,
        Eval(env, e, w, fuel), 1);
  }

  lemma {:induction false} ChainEnds(isOr: bool, c: Code, es: Exprs)
    requires es.Cons? && AllOne(es) && AddChain(isOr, c, es).Some?
    ensures var r := AddChain(isOr, c, es).value;
            r.deposit == c.deposit && |r.items| > 0 && r.items[|r.items| - 1] == Mark(1)
    decreases es
  {
    hide Translate, Deposit, AddCode, AddJumpI, AddLast, Mark;
    var x := Translate(es.head).value;
    ItemDeposits(1);
    LastDeposit(AddItem(c, Operation(POP)), x, 1);
    if es.tail.Cons? {
      var a := AddCode(c, x);
      CodeDeposit(c, x);
      JumpDeposit(if isOr then a else AddItem(a, Operation(ISZERO)), 1);
      ChainEnds(isOr, AddJumpI(if isOr then a else AddItem(a, Operation(ISZERO)), 1), es.tail);
    }
  }

  lemma {:induction false} ShortCircuitSound(env: Env, p: seq<Item>, pc: nat, e: Expr, base: seq<Value>, w: World,
      fuel: nat)
    requires e.ShortCircuit? && Ready(env, p) && Translate(e).Some? && Lies(p, pc, Translate(e).value)
    ensures Correct(env, p, pc, e, base, w, fuel)
    decreases fuel, e, 2
  {
    hide Ready, Computes, Reaches, EvalChain, AddCode, AddChain, TagOf, Mark, Placed;
    var n: nat :| Placed(p, pc, Translate(e).value, n);
    if e.args.tail.Nil? {
      SingleSound(env, p, pc, e, n, base, w, fuel);
    } else {
      SeveralSound(env, p, pc, e, n, base, w, fuel);
    }
  }

  lemma {:induction false} SeveralSound(env: Env, p: seq<Item>, pc: nat, e: Expr, n: nat, base: seq<Value>, w: World,
      fuel: nat)
    requires e.ShortCircuit? && e.args.Cons? && e.args.tail.Cons? && Ready(env, p) && Translate(e).Some?
    requires Placed(p, pc, Translate(e).value, n)
    ensures Correct(env, p, pc, e, base, w, fuel)
    decreases fuel, e, 1
  {
    hide Ready, Computes, Reaches, EvalChain, AddCode, AddChain, TagOf, Mark, CodeAt, StepItem, AllOne;
    var s := State(base, w);
    var start := AddItem(WithTag(EMPTY), PushWord(if e.isOr then 1 else 0));
    var r := AddChain(e.isOr, start, e.args).value;
    ChainEnds(e.isOr, start, e.args);
    var end := pc + |r.items| - 1;
    assert r.deposit == 1;
    ItemAt(p, pc, Shift(r.items, n), |r.items| - 1);
    ShiftedMarks(1, n);
    ChainSound(env, p, pc, e.isOr, start, e.args, n, end, base, w, fuel);
    PlacedAdd(p, pc, WithTag(EMPTY), PushWord(if e.isOr then 1 else 0), n);
    PushEarly(env, p, pc, base, e.isOr, w);
    ComputesAfter(env, p, pc, s, pc + 1, State(base + [Early(e.isOr)], w), end + 1, base,
        EvalChain(env, e.isOr, e.args, w, fuel), 1);
  }

  lemma {:induction false} PushEarly(env: Env, p: seq<Item>, pc: nat, base: seq<Value>, isOr: bool, w: World)
    requires pc < |p| && p[pc] == PushWord(if isOr then 1 else 0)
    ensures Reaches(env, p, pc, State(base, w), pc + 1, State(base + [Early(isOr)], w))
  {
    hide Reaches;
    ItemReaches(env, p, pc, State(base, w), State(base + [Early(isOr)], w));
  }

  lemma {:induction false} SingleSound(env: Env, p: seq<Item>, pc: nat, e: Expr, n: nat, base: seq<Value>, w: World,
      fuel: nat)
    requires e.ShortCircuit? && e.args.Cons? && e.args.tail.Nil? && Ready(env, p) && Translate(e).Some?
    requires Placed(p, pc, Translate(e).value, n)
    ensures Correct(env, p, pc, e, base, w, fuel)
    decreases fuel, e, 1
  {
    hide Ready, Computes, Placed, AddChain, AddLast;
    MarkedSound(env, p, pc, WithTag(EMPTY), e.args.head, 1, n, base, w, fuel);
    LastDeposit(WithTag(EMPTY), Translate(e.args.head).value, 1);
    assert EvalChain(env, e.isOr, e.args, w, fuel) == Eval(env, e.args.head, w, fuel);
    assert Translate(e).value == AddLast(WithTag(EMPTY), Translate(e.args.head).value, 1);
  }
}
