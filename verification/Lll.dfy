/** The LLL compiler: structured operators become jumps. */
module Lll {
  import opened Words
  import opened Instructions
  import opened Items

  // ----- trees -----

  /** Instruction calls, arithmetic on several operands, comparisons, and the structured operators. */
  datatype Expr =
    | Literal(value: Word)
    | Call(op: Opcode, args: Exprs)
    | Arith(op: Opcode, args: Exprs)
    | Binary(op: Opcode, negate: bool, first: Expr, second: Expr)
    | Unary(op: Opcode, first: Expr)
    | Sequence(args: Exprs)
    | If(condition: Expr, yes: Expr, no: Expr)
    | When(whenTrue: bool, condition: Expr, body: Expr)
    | Loop(whileTrue: bool, condition: Expr, body: Expr)
    | For(init: Expr, condition: Expr, post: Expr, body: Expr)
    | Switch(cases: Cases, fallback: Exprs)
    | ShortCircuit(isOr: bool, args: Exprs)

  datatype Exprs = Nil | Cons(head: Expr, tail: Exprs)
  datatype Cases = NoCase | Case(condition: Expr, body: Expr, rest: Cases)

  function Length(es: Exprs): nat { if es.Nil? then 0 else 1 + Length(es.tail) }

  function Count(cases: Cases): nat { if cases.NoCase? then 0 else 1 + Count(cases.rest) }

  // ----- fragments of code -----

  /** Items, the net number of stack elements they leave, and the number of tags in use. */
  datatype Code = Code(items: seq<Item>, deposit: int, usedTags: nat)

  /** Tag zero is reserved. */
  const EMPTY: Code := Code([], 0, 1)

  function ShiftItem(item: Item, n: nat): Item {
    if IsTag(item) || IsPushTag(item) then Data(item.kind, (item.data + n) % MODULUS) else item
  }

  /** Tags renumbered for a place after n other tags. */
  function Shift(items: seq<Item>, n: nat): (r: seq<Item>)
    ensures |r| == |items| && forall i :: 0 <= i < |items| ==> r[i] == ShiftItem(items[i], n)
  {
    seq(|items|, i requires 0 <= i < |items| => ShiftItem(items[i], n))
  }

  function AddItem(c: Code, item: Item): Code { Code(c.items + [item], c.deposit + Deposit(item), c.usedTags) }

  function AddCode(c: Code, d: Code): Code {
    Code(c.items + Shift(d.items, c.usedTags), c.deposit + d.deposit, c.usedTags + d.usedTags)
  }

  /** Appends a fragment and drops what it leaves beyond the wanted deposit. */
  function AddTo(c: Code, d: Code, deposit: int): Option<Code> {
    if deposit > d.deposit then None
    else
      var r := AddCode(c, d);
      Some(Code(r.items + Pops(d.deposit - deposit), c.deposit + deposit, r.usedTags))
  }

  function WithTag(c: Code): Code { c.(usedTags := c.usedTags + 1) }

  function PushMark(t: nat): Item { PushTagItem(t % MODULUS) }

  function Mark(t: nat): Item { TagItem(t % MODULUS) }

  function AddJump(c: Code, t: nat): Code { AddItem(AddItem(c, PushMark(t)), Operation(JUMP)) }

  function AddJumpI(c: Code, t: nat): Code { AddItem(AddItem(c, PushMark(t)), Operation(JUMPI)) }

  // ----- translation; None where the compiler reports an error -----

  predicate IsArithOp(op: Opcode) {
    op == ADD || op == SUB || op == MUL || op == DIV || op == MOD || op == AND || op == OR || op == XOR
  }

  predicate IsBinaryOp(op: Opcode) { op == LT || op == GT || op == SLT || op == SGT || op == EQ }

  predicate IsUnaryOp(op: Opcode) { op == ISZERO || op == NOT }

  /** Instructions that can be called like functions. */
  predicate ValidFunctional(op: Opcode) { !IsPush(op) && !IsDup(op) && !IsSwap(op) && op != JUMPDEST }

  function Translate(e: Expr): Option<Code>
    decreases e
  {
    match e
    case Literal(w) => Some(AddItem(EMPTY, PushWord(w)))
    case Call(op, args) =>
      if !ValidFunctional(op) || Length(args) != InfoOf(op).args then None
      else
        var c := AddArguments(EMPTY, args);
        if c.None? then None else Some(AddItem(c.value, Operation(op)))
    case Arith(op, args) =>
      if !IsArithOp(op) || args.Nil? || !AllOne(args) then None
      else
        var c := AddArguments(EMPTY, args);
        if c.None? then None else Some(AddTimes(c.value, Operation(op), Length(args) - 1))
    case Binary(op, negate, a, b) =>
      var x, y := Translate(a), Translate(b);
      if !IsBinaryOp(op) || x.None? || y.None? || x.value.deposit != 1 || y.value.deposit != 1 then None
      else
        var c := AddItem(AddCode(AddCode(EMPTY, y.value), x.value), Operation(op));
        Some(if negate then AddItem(c, Operation(ISZERO)) else c)
    case Unary(op, a) =>
      var x := Translate(a);
      if !IsUnaryOp(op) || x.None? || x.value.deposit != 1 then None else Some(AddItem(AddCode(EMPTY, x.value), Operation(op)))
    case Sequence(args) => AddSequence(EMPTY, args)
    case If(c, yes, no) => TranslateIf(Translate(c), Translate(yes), Translate(no))
    case When(whenTrue, c, body) => TranslateWhen(whenTrue, Translate(c), Translate(body))
    case Loop(whileTrue, c, body) => TranslateLoop(whileTrue, Translate(c), Translate(body))
    case For(init, c, post, body) => TranslateFor(Translate(init), Translate(c), Translate(post), Translate(body))
    case Switch(cases, fallback) =>
      if Length(fallback) > 1 || (cases.NoCase? && fallback.Nil?) then None
      else
        var d := if fallback.Nil? then Some(EMPTY) else Translate(fallback.head);
        if d.None? then None else TranslateSwitch(cases, d.value, fallback.Cons?)
    case ShortCircuit(isOr, args) =>
      if args.Nil? || !AllOne(args) then None
      else if args.tail.Nil? then
        var x := Translate(args.head);
        if x.None? then None else Some(AddLast(WithTag(EMPTY), x.value, 1))
      else AddChain(isOr, AddItem(WithTag(EMPTY), PushWord(if isOr then 1 else 0)), args)
  }

  /** Every operand leaves one element. */
  predicate AllOne(es: Exprs)
    decreases es
  {
    es.Nil? || (Translate(es.head).Some? && Translate(es.head).value.deposit == 1 && AllOne(es.tail))
  }

  /** Operands, the last one first. */
  function AddArguments(c: Code, es: Exprs): Option<Code>
    decreases es
  {
    if es.Nil? then Some(c)
    else
      var rest, x := AddArguments(c, es.tail), Translate(es.head);
      if rest.None? || x.None? then None else AddTo(rest.value, x.value, 1)
  }

  function AddTimes(c: Code, item: Item, n: nat): Code {
    if n == 0 then c else AddItem(AddTimes(c, item, n - 1), item)
  }

  /** A sequence leaves what its last part leaves. */
  function AddSequence(c: Code, es: Exprs): Option<Code>
    decreases es
  {
    if es.Nil? then Some(c)
    else
      var x := Translate(es.head);
      if x.None? then None
      else if es.tail.Nil? then Some(AddCode(c, x.value))
      else
        var d := AddTo(c, x.value, 0);
        if d.None? then None else AddSequence(d.value, es.tail)
  }

  function Min(a: int, b: int): int { if a < b then a else b }

  function TranslateIf(c: Option<Code>, yes: Option<Code>, no: Option<Code>): Option<Code> {
    if c.None? || yes.None? || no.None? || c.value.deposit != 1 then None
    else
      var least := Min(yes.value.deposit, no.value.deposit);
      var a := AddCode(EMPTY, c.value);
      var main := a.usedTags;
      var b := AddTo(AddJumpI(WithTag(a), main), no.value, least);
      if b.None? then None
      else
        var end := b.value.usedTags;
        var d := AddJump(WithTag(b.value), end).(deposit := 0);
        var f := AddTo(AddItem(d, Mark(main)), yes.value, least);
        if f.None? then None else Some(AddItem(f.value, Mark(end)))
  }

  function TranslateWhen(whenTrue: bool, c: Option<Code>, body: Option<Code>): Option<Code> {
    if c.None? || body.None? || c.value.deposit != 1 then None
    else
      var a := AddCode(EMPTY, c.value);
      var b := if whenTrue then AddItem(a, Operation(ISZERO)) else a;
      var end := b.usedTags;
      var d := AddTo(AddJumpI(WithTag(b), end), body.value, 0);
      if d.None? then None else Some(AddItem(d.value, Mark(end)))
  }

  function TranslateLoop(whileTrue: bool, c: Option<Code>, body: Option<Code>): Option<Code> {
    if c.None? || body.None? || c.value.deposit != 1 then None else AddLoop(EMPTY, whileTrue, c.value, body.value)
  }

  function AddLoop(i: Code, whileTrue: bool, c: Code, body: Code): Option<Code> {
    var begin := i.usedTags;
    var a := AddCode(AddItem(WithTag(i), Mark(begin)), c);
    var b := if whileTrue then AddItem(a, Operation(ISZERO)) else a;
    var end := b.usedTags;
    var d := AddTo(AddJumpI(WithTag(b), end), body, 0);
    if d.None? then None else Some(AddItem(AddJump(d.value, begin), Mark(end)))
  }

  function TranslateFor(init: Option<Code>, c: Option<Code>, post: Option<Code>, body: Option<Code>): Option<Code> {
    if init.None? || c.None? || post.None? || body.None? || c.value.deposit != 1 then None
    else
      var i := AddTo(EMPTY, init.value, 0);
      if i.None? then None
      else
        var begin := i.value.usedTags;
        var a := AddItem(AddCode(AddItem(WithTag(i.value), Mark(begin)), c.value), Operation(ISZERO));
        var end := a.usedTags;
        var b := AddTo(AddJumpI(WithTag(a), end), body.value, 0);
        if b.None? then None
        else
          var d := AddTo(b.value, post.value, 0);
          if d.None? then None else Some(AddItem(AddJump(d.value, begin), Mark(end)))
  }

  /** The conditions of a switch in order; `tags` are the tags of the bodies. */
  datatype Heads = Heads(code: Code, tags: seq<nat>)

  function AddConditions(c: Code, cases: Cases): Option<Heads>
    decreases cases, 0
  {
    if cases.NoCase? then Some(Heads(c, []))
    else
      var x := Translate(cases.condition);
      if x.None? || x.value.deposit != 1 then None
      else
        var a := AddCode(c, x.value);
        var rest := AddConditions(AddJumpI(WithTag(a), a.usedTags), cases.rest);
        if rest.None? then None else Some(Heads(rest.value.code, [a.usedTags] + rest.value.tags))
  }

  /** The bodies of a switch, the last one first; all but the first case jump to the end. */
  function AddBodies(c: Code, cases: Cases, tags: seq<nat>, end: nat, deposit: int, isFirst: bool): Option<Code>
    decreases cases, 0
  {
    if cases.NoCase? || |tags| == 0 then Some(c)
    else
      var rest, x := AddBodies(c, cases.rest, tags[1..], end, deposit, false), Translate(cases.body);
      if rest.None? || x.None? || x.value.deposit != deposit then None
      else
        var a := AddCode(AddItem(rest.value, Mark(tags[0])), x.value);
        Some(if isFirst then a else AddJump(a, end))
  }

  function TranslateSwitch(cases: Cases, fallback: Code, hasFallback: bool): Option<Code>
    decreases cases, 1
  {
    var target := if hasFallback then fallback.deposit else 0;
    var heads := AddConditions(EMPTY, cases);
    if heads.None? then None
    else
      var a := if hasFallback then AddCode(heads.value.code, fallback) else heads.value.code;
      if cases.NoCase? then Some(a.(deposit := target))
      else
        var end := a.usedTags;
        var b := AddBodies(AddJump(WithTag(a), end), cases, heads.value.tags, end, target, true);
        if b.None? then None else Some(AddItem(b.value, Mark(end)).(deposit := target))
  }

  /** The last operand of && and ||, then the place where all of them meet. */
  function AddLast(c: Code, d: Code, end: nat): Code { AddItem(AddCode(c, d), Mark(end)) }

  /** The operands of && and || but the last one, each with an early way out. */
  function AddChain(isOr: bool, c: Code, es: Exprs): Option<Code>
    requires es.Cons?
    decreases es
  {
    var x := Translate(es.head);
    if x.None? then None
    else if es.tail.Nil? then Some(AddLast(AddItem(c, Operation(POP)), x.value, 1))
    else
      var a := AddCode(c, x.value);
      AddChain(isOr, AddJumpI(if isOr then a else AddItem(a, Operation(ISZERO)), 1), es.tail)
  }
}
