/** The assembler's running stack count never falls below zero while LLL code is put together. */
module LllDeposits {
  import opened Words
  import opened Instructions
  import opened Items
  import opened Lll
  import opened LllSound
  import opened LllLayout
  import opened LllCorrect

  /** The sum of what the items leave, without regard to jumps. */
  function RawSum(items: seq<Item>): int
    decreases |items|
  {
    if items == [] then 0 else RawSum(items[..|items| - 1]) + Deposit(items[|items| - 1])
  }

  /** Starting at a count, no item is appended at a count below zero. */
  predicate Enough(deposit: int, items: seq<Item>) {
    forall k :: 0 <= k < |items| ==> deposit + RawSum(items[..k]) >= 0
  }

  predicate Sane(c: Code) { Enough(0, c.items) && 0 <= c.deposit <= RawSum(c.items) }

  lemma {:induction false} EnoughMore(deposit: nat, items: seq<Item>)
    requires Enough(0, items)
    ensures Enough(deposit, items)
  {
    hide RawSum;
  }

  lemma {:induction false} RawSumSnoc(items: seq<Item>, item: Item)
    ensures RawSum(items + [item]) == RawSum(items) + Deposit(item)
  {
    hide Deposit;
    assert (items + [item])[..|items|] == items;
  }

  lemma {:induction false} RawSumConcat(a: seq<Item>, b: seq<Item>)
    ensures RawSum(a + b) == RawSum(a) + RawSum(b)
    decreases |b|
  {
    hide Deposit;
    if b == [] {
      assert a + b == a;
    } else {
      RawSumConcat(a, b[..|b| - 1]);
      assert (a + b)[..|a + b| - 1] == a + b[..|b| - 1];
    }
  }

  lemma {:induction false} ShiftDeposit(item: Item, n: nat)
    ensures Deposit(ShiftItem(item, n)) == Deposit(item)
  {
    hide InfoOf;
  }

  lemma {:induction false} RawSumShift(items: seq<Item>, n: nat)
    ensures RawSum(Shift(items, n)) == RawSum(items)
    decreases |items|
  {
    hide Deposit, ShiftItem;
    if items != [] {
      var m := |items| - 1;
      RawSumShift(items[..m], n);
      assert Shift(items, n)[..m] == Shift(items[..m], n);
      ShiftDeposit(items[m], n);
    }
  }

  lemma {:induction false} EnoughShift(deposit: int, items: seq<Item>, n: nat)
    requires Enough(deposit, items)
    ensures Enough(deposit, Shift(items, n))
  {
    hide RawSum;
    forall k | 0 <= k < |items| ensures deposit + RawSum(Shift(items, n)[..k]) >= 0 {
      RawSumShift(items[..k], n);
      assert Shift(items, n)[..k] == Shift(items[..k], n);
    }
  }

  lemma {:induction false} EnoughConcat(a: seq<Item>, b: seq<Item>)
    requires Enough(0, a) && Enough(RawSum(a), b)
    ensures Enough(0, a + b)
  {
    hide RawSum;
    forall k | 0 <= k < |a + b| ensures RawSum((a + b)[..k]) >= 0 {
      if k < |a| {
        assert (a + b)[..k] == a[..k];
      } else {
        assert (a + b)[..k] == a + b[..k - |a|];
        RawSumConcat(a, b[..k - |a|]);
      }
    }
  }

  lemma {:induction false} ItemSane(c: Code, item: Item)
    requires Sane(c) && c.deposit + Deposit(item) >= 0
    ensures Sane(AddItem(c, item))
  {
    hide Deposit;
    RawSumSnoc(c.items, item);
    EnoughConcat(c.items, [item]);
  }

  lemma {:induction false} CodeSane(c: Code, d: Code)
    requires Sane(c) && Sane(d)
    ensures Sane(AddCode(c, d))
  {
    hide RawSum, Shift;
    var s := Shift(d.items, c.usedTags);
    RawSumShift(d.items, c.usedTags);
    RawSumConcat(c.items, s);
    EnoughShift(0, d.items, c.usedTags);
    EnoughMore(RawSum(c.items), s);
    EnoughConcat(c.items, s);
  }

  lemma {:induction false} PopsSane(c: Code, n: nat)
    requires Sane(c) && n <= c.deposit
    ensures Sane(Code(c.items + Pops(n), c.deposit - n, c.usedTags))
    decreases n
  {
    hide Deposit;
    if n == 0 {
      assert c.items + Pops(0) == c.items;
    } else {
      PopsSane(c, n - 1);
      ItemDeposits(0);
      ItemSane(Code(c.items + Pops(n - 1), c.deposit - (n - 1), c.usedTags), Operation(POP));
      assert c.items + Pops(n) == c.items + Pops(n - 1) + [Operation(POP)];
    }
  }

  lemma {:induction false} ToSane(c: Code, d: Code, deposit: int)
    requires Sane(c) && Sane(d) && 0 <= deposit
    ensures AddTo(c, d, deposit).Some? ==> Sane(AddTo(c, d, deposit).value)
  {
    hide Sane, Shift;
    if AddTo(c, d, deposit).Some? {
      SaneCount(c);
      CodeSane(c, d);
      PopsSane(AddCode(c, d), d.deposit - deposit);
    }
  }

  lemma {:induction false} SaneCount(c: Code)
    requires Sane(c)
    ensures c.deposit >= 0 && Enough(0, c.items)
  {
  }

  lemma {:induction false} ResetSane(c: Code, deposit: int)
    requires Sane(c) && 0 <= deposit <= c.deposit
    ensures Sane(c.(deposit := deposit))
  {
  }

  lemma {:induction false} JumpSane(c: Code, t: nat)
    requires Sane(c)
    ensures Sane(AddJump(c, t)) && (c.deposit >= 1 ==> Sane(AddJumpI(c, t)))
  {
    hide Sane, Deposit;
    SaneCount(c);
    ItemDeposits(t);
    ItemSane(c, PushMark(t));
    ItemSane(AddItem(c, PushMark(t)), Operation(JUMP));
    if c.deposit >= 1 { ItemSane(AddItem(c, PushMark(t)), Operation(JUMPI)); }
  }

  lemma {:induction false} MarkSane(c: Code, t: nat)
    requires Sane(c)
    ensures Sane(AddItem(c, Mark(t))) && AddItem(c, Mark(t)).deposit == c.deposit
  {
    hide Sane, Deposit, Mark;
    SaneCount(c);
    ItemDeposits(t);
    ItemSane(c, Mark(t));
  }

  lemma {:induction false} TagSane(c: Code)
    requires Sane(c)
    ensures Sane(WithTag(c))
  {
  }

  lemma {:induction false} BranchSane(c: Code, negate: bool, t: nat)
    requires Sane(c) && c.deposit >= 1
    ensures Sane(AddBranch(c, negate, t)) && AddBranch(c, negate, t).deposit == c.deposit - 1
  {
    hide Sane, Deposit, AddJumpI;
    ItemDeposits(t);
    if negate { ItemSane(c, Operation(ISZERO)); }
    var d := if negate then AddItem(c, Operation(ISZERO)) else c;
    TagSane(d);
    JumpSane(WithTag(d), t);
    BranchDeposit(c, negate, t);
  }

  lemma {:induction false} EmptySane()
    ensures Sane(EMPTY)
  {
  }

  // ----- trees -----

  lemma {:induction false} TranslateSane(e: Expr)
    requires Translate(e).Some?
    ensures Sane(Translate(e).value)
    decreases e, 1
  {
    hide Sane, AddCode, AddJump, AddJumpI, AddTo, TranslateIf, TranslateWhen, AddLoop, TranslateFor, TranslateSwitch;
    hide AddArguments, AddTimes, AddSequence, AddChain, AllOne, AddLast, Deposit, InfoOf, ValidFunctional, IsArithOp;
    hide IsBinaryOp, IsUnaryOp;
    EmptySane();
    match e
    case Literal(v) =>
      PushDeposit(v);
      ItemSane(EMPTY, PushWord(v));
    case Call(op, args) =>
      ArgumentsSane(EMPTY, args);
      ArgumentDeposit(EMPTY, args);
      OperationDeposit(op);
      ItemSane(AddArguments(EMPTY, args).value, Operation(op));
    case Arith(op, args) =>
      ArgumentsSane(EMPTY, args);
      ArgumentDeposit(EMPTY, args);
      TimesSane(AddArguments(EMPTY, args).value, op, Length(args) - 1);
    case Binary(op, negate, a, b) =>
      TranslateSane(a);
      TranslateSane(b);
      BinarySane(Translate(a).value, Translate(b).value, op);
    case Unary(op, a) =>
      TranslateSane(a);
      UnarySane(Translate(a).value, op);
    case Sequence(args) => SequenceSane(EMPTY, args);
    case If(c, yes, no) => IfTreeSane(e);
    case When(whenTrue, c, body) => WhenTreeSane(e);
    case Loop(whileTrue, c, body) =>
      TranslateSane(c);
      TranslateSane(body);
      LoopSane(EMPTY, whileTrue, Translate(c).value, Translate(body).value);
    case For(init, c, post, body) =>
      ForParts(e);
      TranslateSane(init);
      TranslateSane(c);
      TranslateSane(post);
      TranslateSane(body);
      ForSane(Translate(init).value, Translate(c).value, Translate(post).value, Translate(body).value);
    case Switch(cases, fallback) =>
      if fallback.Cons? { TranslateSane(fallback.head); }
      SwitchSane(cases, if fallback.Nil? then EMPTY else Translate(fallback.head).value, fallback.Cons?);
    case ShortCircuit(isOr, args) => ShortCircuitSane(isOr, args);
  }

  lemma {:induction false} PushDeposit(v: Word)
    ensures Deposit(PushWord(v)) == 1
  {
  }

  lemma {:induction false} ArgumentsSane(c: Code, es: Exprs)
    requires Sane(c)
    ensures AddArguments(c, es).Some? ==> Sane(AddArguments(c, es).value)
    decreases es, 0
  {
    hide Sane, Translate, AddTo;
    if AddArguments(c, es).Some? && es.Cons? {
      ArgumentsSane(c, es.tail);
      TranslateSane(es.head);
      ToSane(AddArguments(c, es.tail).value, Translate(es.head).value, 1);
    }
  }

  lemma {:induction false} TimesSane(c: Code, op: Opcode, n: nat)
    requires Sane(c) && IsArithOp(op) && c.deposit >= n
    ensures Sane(AddTimes(c, Operation(op), n)) && AddTimes(c, Operation(op), n).deposit == c.deposit - n
  {
    hide Sane, Deposit, IsArithOp;
    if n > 0 {
      TimesSane(c, op, n - 1);
      ArithInfo(op);
      OperationDeposit(op);
      ItemSane(AddTimes(c, Operation(op), n - 1), Operation(op));
    }
  }

  lemma {:induction false} BinarySane(x: Code, y: Code, op: Opcode)
    requires Sane(x) && Sane(y) && x.deposit == 1 == y.deposit && IsBinaryOp(op)
    ensures var c := AddItem(AddCode(AddCode(EMPTY, y), x), Operation(op));
            Sane(c) && Sane(AddItem(c, Operation(ISZERO)))
  {
    hide Sane, AddCode, Deposit, InfoOf, IsBinaryOp;
    var a := AddCode(AddCode(EMPTY, y), x);
    EmptySane();
    CodeSane(EMPTY, y);
    CodeSane(AddCode(EMPTY, y), x);
    CodeDeposit(EMPTY, y);
    CodeDeposit(AddCode(EMPTY, y), x);
    ArithInfo(op);
    OperationDeposit(op);
    ItemDeposits(0);
    ItemSane(a, Operation(op));
    ItemSane(AddItem(a, Operation(op)), Operation(ISZERO));
  }

  lemma {:induction false} UnarySane(x: Code, op: Opcode)
    requires Sane(x) && x.deposit == 1 && IsUnaryOp(op)
    ensures Sane(AddItem(AddCode(EMPTY, x), Operation(op)))
  {
    hide Sane, AddCode, Deposit, InfoOf, IsUnaryOp;
    EmptySane();
    CodeSane(EMPTY, x);
    CodeDeposit(EMPTY, x);
    UnaryInfo(op);
    OperationDeposit(op);
    ItemSane(AddCode(EMPTY, x), Operation(op));
  }

  lemma {:induction false} SequenceSane(c: Code, es: Exprs)
    requires Sane(c)
    ensures AddSequence(c, es).Some? ==> Sane(AddSequence(c, es).value)
    decreases es, 0
  {
    hide Sane, Translate, AddTo, AddCode;
    if AddSequence(c, es).Some? && es.Cons? {
      TranslateSane(es.head);
      var x := Translate(es.head).value;
      if es.tail.Nil? {
        CodeSane(c, x);
      } else {
        ToSane(c, x, 0);
        SequenceSane(AddTo(c, x, 0).value, es.tail);
      }
    }
  }

  lemma {:induction false} IfTreeSane(e: Expr)
    requires e.If? && Translate(e).Some?
    ensures Sane(Translate(e).value)
    decreases e, 0
  {
    hide Sane, AddCode, AddTo, AddJump, AddJumpI, Deposit, Mark;
    TranslateSane(e.condition);
    TranslateSane(e.yes);
    TranslateSane(e.no);
    IfSane(Translate(e.condition).value, Translate(e.yes).value, Translate(e.no).value);
  }

  lemma {:induction false} IfSane(c: Code, yes: Code, no: Code)
    requires Sane(c) && Sane(yes) && Sane(no)
    ensures TranslateIf(Some(c), Some(yes), Some(no)).Some? ==> Sane(TranslateIf(Some(c), Some(yes), Some(no)).value)
  {
    hide Sane, AddCode, AddTo, AddJump, AddJumpI, Deposit, Mark;
    if TranslateIf(Some(c), Some(yes), Some(no)).Some? {
      SaneCount(yes);
      SaneCount(no);
      var least := Min(yes.deposit, no.deposit);
      var a := AddCode(EMPTY, c);
      var h := AddBranch(a, false, a.usedTags);
      var b := AddTo(h, no, least).value;
      var g := AddJump(WithTag(b), b.usedTags);
      EmptySane();
      CodeSane(EMPTY, c);
      CodeDeposit(EMPTY, c);
      BranchSane(a, false, a.usedTags);
      ToSane(h, no, least);
      TagSane(b);
      JumpSane(WithTag(b), b.usedTags);
      SaneCount(g);
      ResetSane(g, 0);
      MarkSane(g.(deposit := 0), a.usedTags);
      var d := AddItem(g.(deposit := 0), Mark(a.usedTags));
      ToSane(d, yes, least);
      MarkSane(AddTo(d, yes, least).value, b.usedTags);
    }
  }

  lemma {:induction false} WhenTreeSane(e: Expr)
    requires e.When? && Translate(e).Some?
    ensures Sane(Translate(e).value)
    decreases e, 0
  {
    hide Sane, AddCode, AddTo, AddJumpI, Deposit, Mark;
    TranslateSane(e.condition);
    TranslateSane(e.body);
    WhenSane(e.whenTrue, Translate(e.condition).value, Translate(e.body).value);
  }

  lemma {:induction false} WhenSane(whenTrue: bool, c: Code, body: Code)
    requires Sane(c) && Sane(body)
    ensures TranslateWhen(whenTrue, Some(c), Some(body)).Some? ==>
              Sane(TranslateWhen(whenTrue, Some(c), Some(body)).value)
  {
    hide Sane, AddCode, AddTo, AddJumpI, Deposit, Mark;
    if TranslateWhen(whenTrue, Some(c), Some(body)).Some? {
      var a := AddCode(EMPTY, c);
      var h := AddBranch(a, whenTrue, a.usedTags);
      EmptySane();
      CodeSane(EMPTY, c);
      CodeDeposit(EMPTY, c);
      BranchSane(a, whenTrue, a.usedTags);
      ToSane(h, body, 0);
      MarkSane(AddTo(h, body, 0).value, a.usedTags);
    }
  }

  lemma {:induction false} LoopSane(i: Code, whileTrue: bool, c: Code, body: Code)
    requires Sane(i) && Sane(c) && Sane(body) && c.deposit == 1
    ensures AddLoop(i, whileTrue, c, body).Some? ==> Sane(AddLoop(i, whileTrue, c, body).value)
  {
    hide Sane, AddCode, AddTo, AddJump, AddJumpI, Deposit, Mark;
    if AddLoop(i, whileTrue, c, body).Some? {
      var start := AddItem(WithTag(i), Mark(i.usedTags));
      var a := AddCode(start, c);
      var h := AddBranch(a, whileTrue, a.usedTags);
      SaneCount(i);
      TagSane(i);
      MarkSane(WithTag(i), i.usedTags);
      CodeSane(start, c);
      CodeDeposit(start, c);
      BranchSane(a, whileTrue, a.usedTags);
      ToSane(h, body, 0);
      JumpSane(AddTo(h, body, 0).value, i.usedTags);
      MarkSane(AddJump(AddTo(h, body, 0).value, i.usedTags), a.usedTags);
    }
  }

  lemma {:induction false} ForSane(init: Code, c: Code, post: Code, body: Code)
    requires Sane(init) && Sane(c) && Sane(post) && Sane(body)
    ensures TranslateFor(Some(init), Some(c), Some(post), Some(body)).Some? ==>
              Sane(TranslateFor(Some(init), Some(c), Some(post), Some(body)).value)
  {
    hide Sane, AddCode, AddTo, AddJump, AddJumpI, Deposit, Mark;
    if TranslateFor(Some(init), Some(c), Some(post), Some(body)).Some? {
      var i := AddTo(EMPTY, init, 0).value;
      var start := AddItem(WithTag(i), Mark(i.usedTags));
      var a := AddCode(start, c);
      var h := AddBranch(a, true, a.usedTags);
      var b := AddTo(h, body, 0).value;
      EmptySane();
      ToSane(EMPTY, init, 0);
      SaneCount(i);
      TagSane(i);
      MarkSane(WithTag(i), i.usedTags);
      CodeSane(start, c);
      CodeDeposit(start, c);
      BranchSane(a, true, a.usedTags);
      ToSane(h, body, 0);
      ToSane(b, post, 0);
      JumpSane(AddTo(b, post, 0).value, i.usedTags);
      MarkSane(AddJump(AddTo(b, post, 0).value, i.usedTags), a.usedTags);
    }
  }

  lemma {:induction false} ConditionsSane(c: Code, cases: Cases)
    requires Sane(c)
    ensures var heads := AddConditions(c, cases);
            heads.Some? ==> Sane(heads.value.code) && heads.value.code.deposit == c.deposit
    decreases cases, 0
  {
    hide Sane, Translate, AddCode, AddJumpI;
    if AddConditions(c, cases).Some? && cases.Case? {
      var x := Translate(cases.condition).value;
      var a := AddCode(c, x);
      SaneCount(c);
      TranslateSane(cases.condition);
      CodeSane(c, x);
      CodeDeposit(c, x);
      BranchSane(a, false, a.usedTags);
      ConditionsSane(AddBranch(a, false, a.usedTags), cases.rest);
    }
  }

  lemma {:induction false} BodiesSane(c: Code, cases: Cases, tags: seq<nat>, end: nat, deposit: nat, isFirst: bool)
    requires Sane(c)
    ensures var r := AddBodies(c, cases, tags, end, deposit, isFirst);
            r.Some? ==> Sane(r.value) && r.value.deposit >= c.deposit
    decreases cases, 0
  {
    hide Sane, Translate, AddCode, AddJump, Mark, Deposit;
    if AddBodies(c, cases, tags, end, deposit, isFirst).Some? && cases.Case? && |tags| > 0 {
      BodiesSane(c, cases.rest, tags[1..], end, deposit, false);
      TranslateSane(cases.body);
      var rest, x := AddBodies(c, cases.rest, tags[1..], end, deposit, false).value, Translate(cases.body).value;
      var m := AddItem(rest, Mark(tags[0]));
      MarkSane(rest, tags[0]);
      CodeSane(m, x);
      CodeDeposit(m, x);
      JumpSane(AddCode(m, x), end);
      JumpDeposit(AddCode(m, x), end);
    }
  }

  lemma {:induction false} SwitchSane(cases: Cases, fallback: Code, hasFallback: bool)
    requires Sane(fallback)
    ensures TranslateSwitch(cases, fallback, hasFallback).Some? ==>
              Sane(TranslateSwitch(cases, fallback, hasFallback).value)
    decreases cases, 1
  {
    hide Sane, AddConditions, AddBodies, AddCode, AddJump, Mark, Deposit;
    if TranslateSwitch(cases, fallback, hasFallback).Some? {
      SaneCount(fallback);
      var target: nat := if hasFallback then fallback.deposit else 0;
      var heads := AddConditions(EMPTY, cases).value;
      EmptySane();
      ConditionsSane(EMPTY, cases);
      CodeSane(heads.code, fallback);
      CodeDeposit(heads.code, fallback);
      var a := if hasFallback then AddCode(heads.code, fallback) else heads.code;
      if cases.NoCase? {
        ResetSane(a, target);
      } else {
        var end := a.usedTags;
        TagSane(a);
        JumpSane(WithTag(a), end);
        JumpDeposit(WithTag(a), end);
        BodiesSane(AddJump(WithTag(a), end), cases, heads.tags, end, target, true);
        var r := AddBodies(AddJump(WithTag(a), end), cases, heads.tags, end, target, true).value;
        MarkSane(r, end);
        ResetSane(AddItem(r, Mark(end)), target);
      }
    }
  }

  lemma {:induction false} LastSane(c: Code, d: Code, end: nat)
    requires Sane(c) && Sane(d)
    ensures Sane(AddLast(c, d, end))
  {
    hide Sane, AddCode, Mark, Deposit;
    CodeSane(c, d);
    MarkSane(AddCode(c, d), end);
  }

  lemma {:induction false} ChainSane(isOr: bool, c: Code, es: Exprs)
    requires es.Cons? && AllOne(es) && Sane(c) && c.deposit == 1
    ensures AddChain(isOr, c, es).Some? ==> Sane(AddChain(isOr, c, es).value)
    decreases es, 0
  {
    hide Sane, Translate, AddCode, AddJumpI, AddLast, Mark, Deposit;
    if AddChain(isOr, c, es).Some? {
      var x := Translate(es.head).value;
      TranslateSane(es.head);
      ItemDeposits(1);
      if es.tail.Nil? {
        ItemSane(c, Operation(POP));
        LastSane(AddItem(c, Operation(POP)), x, 1);
      } else {
        var a := AddCode(c, x);
        CodeSane(c, x);
        CodeDeposit(c, x);
        ItemSane(a, Operation(ISZERO));
        var b := if isOr then a else AddItem(a, Operation(ISZERO));
        JumpSane(b, 1);
        JumpDeposit(b, 1);
        ChainSane(isOr, AddJumpI(b, 1), es.tail);
      }
    }
  }

  lemma {:induction false} ShortCircuitSane(isOr: bool, args: Exprs)
    requires Translate(ShortCircuit(isOr, args)).Some?
    ensures Sane(Translate(ShortCircuit(isOr, args)).value)
    decreases args, 2
  {
    hide Sane, AddChain, AddLast, AllOne, Deposit;
    EmptySane();
    TagSane(EMPTY);
    if args.tail.Nil? {
      TranslateSane(args.head);
      LastSane(WithTag(EMPTY), Translate(args.head).value, 1);
    } else {
      PushDeposit(if isOr then 1 else 0);
      ItemSane(WithTag(EMPTY), PushWord(if isOr then 1 else 0));
      ChainSane(isOr, AddItem(WithTag(EMPTY), PushWord(if isOr then 1 else 0)), args);
    }
  }
}
