/** Putting the code of an LLL tree together, fragment by fragment. */
module CodeFragments {
  import opened Words
  import opened Instructions
  import opened Items
  import opened Lll
  import opened LllSound
  import opened LllLayout
  import opened LllCorrect
  import opened LllTags
  import opened LllDeposits
  import opened Assemblies

  /** Rejected: the compiler reports an error. */
  datatype Fragment = Built(fragment: Assembly) | Rejected | TooManyTags

  function Trouble(status: Status): Fragment
    requires status != Fine
  {
    if status.Invalid? then Rejected else TooManyTags
  }

  // ----- lists of operands -----

  function Drop(es: Exprs, n: nat): Exprs
    requires n <= Length(es)
  {
    if n == 0 then es else Drop(es.tail, n - 1)
  }

  lemma {:induction false} DropNext(es: Exprs, n: nat)
    requires n < Length(es)
    ensures Drop(es, n).Cons? && Drop(es, n).tail == Drop(es, n + 1) && Length(Drop(es, n)) == Length(es) - n
    decreases es
  {
    if n > 0 { DropNext(es.tail, n - 1); }
  }

  lemma {:induction false} DropAll(es: Exprs)
    ensures Drop(es, Length(es)).Nil?
  {
    if es.Cons? { DropAll(es.tail); }
  }

  /** The code of each operand. */
  ghost predicate Compiled(es: Exprs, code: seq<Assembly>)
    reads code
    decreases es
  {
    if es.Nil? then code == []
    else code != [] && Translate(es.head) == Some(code[0].Contents()) && Compiled(es.tail, code[1..])
  }

  lemma {:induction false} CompiledAt(es: Exprs, code: seq<Assembly>, i: nat)
    requires Compiled(es, code) && i < |code|
    ensures Length(es) == |code| && Drop(es, i).Cons? && Translate(Drop(es, i).head) == Some(code[i].Contents())
    ensures Drop(es, i).tail == Drop(es, i + 1)
    ensures Sane(code[i].Contents())
    decreases es
  {
    hide Translate, Sane;
    CompiledLength(es, code);
    TranslateSane(es.head);
    if i > 0 { CompiledAt(es.tail, code[1..], i - 1); }
  }

  lemma {:induction false} CompiledLength(es: Exprs, code: seq<Assembly>)
    requires Compiled(es, code)
    ensures Length(es) == |code|
    decreases es
  {
    hide Translate;
    if es.Cons? { CompiledLength(es.tail, code[1..]); }
  }

  // ----- one construct -----

  method CompileIf(c: Assembly, yes: Assembly, no: Assembly) returns (r: Fragment)
    requires Sane(c.Contents()) && Sane(yes.Contents()) && Sane(no.Contents())
    ensures r.Built? ==> fresh(r.fragment) && r.fragment.usedTags <= MAX_TAGS
    ensures r.Built? ==>
              TranslateIf(Some(c.Contents()), Some(yes.Contents()), Some(no.Contents())) == Some(r.fragment.Contents())
    ensures r.Rejected? ==> TranslateIf(Some(c.Contents()), Some(yes.Contents()), Some(no.Contents())).None?
  {
    hide Sane, AddCode, AddTo, AddJump, AddJumpI, Deposit, Mark;
    SaneCount(yes.Contents());
    SaneCount(no.Contents());
    if c.deposit != 1 { return Rejected; }
    var minDep := if yes.deposit < no.deposit then yes.deposit else no.deposit;
    var m := new Assembly();
    EmptySane();
    var status := m.AppendFragment(c);
    if status != Fine { return TooManyTags; }
    CodeDeposit(EMPTY, c.Contents());
    ghost var a := m.Contents();
    var main;
    main, status := m.AppendJumpI();
    if status != Fine { return TooManyTags; }
    JumpDeposit(WithTag(a), main);
    status := m.AppendTrimmed(no, minDep);
    if status != Fine { return Trouble(status); }
    ToDeposit(AddJumpI(WithTag(a), main), no.Contents(), minDep);
    ghost var b := m.Contents();
    var end;
    end, status := m.AppendJump();
    if status != Fine { return TooManyTags; }
    JumpDeposit(WithTag(b), end);
    var deposit := m.deposit;
    m.deposit := 0;
    ItemDeposits(main);
    ItemDeposits(end);
    m.Append(Mark(main));
    ghost var d := m.Contents();
    status := m.AppendTrimmed(yes, minDep);
    if status != Fine { return Trouble(status); }
    ToDeposit(d, yes.Contents(), minDep);
    m.Append(Mark(end));
    if m.deposit != deposit { return Rejected; }
    r := Built(m);
  }

  method CompileWhen(whenTrue: bool, c: Assembly, body: Assembly) returns (r: Fragment)
    requires Sane(c.Contents()) && Sane(body.Contents())
    ensures r.Built? ==> fresh(r.fragment) && r.fragment.usedTags <= MAX_TAGS
    ensures r.Built? ==>
              TranslateWhen(whenTrue, Some(c.Contents()), Some(body.Contents())) == Some(r.fragment.Contents())
    ensures r.Rejected? ==> TranslateWhen(whenTrue, Some(c.Contents()), Some(body.Contents())).None?
  {
    hide Sane, AddCode, AddTo, AddJump, AddJumpI, Deposit, Mark;
    if c.deposit != 1 { return Rejected; }
    var m := new Assembly();
    var status := m.AppendFragment(c);
    if status != Fine { return TooManyTags; }
    CodeDeposit(EMPTY, c.Contents());
    ItemDeposits(0);
    if whenTrue { m.Append(Operation(ISZERO)); }
    ghost var b := m.Contents();
    var end;
    end, status := m.AppendJumpI();
    if status != Fine { return TooManyTags; }
    JumpDeposit(WithTag(b), end);
    status := m.AppendTrimmed(body, 0);
    if status != Fine { return Trouble(status); }
    ToDeposit(AddJumpI(WithTag(b), end), body.Contents(), 0);
    m.Append(Mark(end));
    r := Built(m);
  }

  method CompileLoop(whileTrue: bool, c: Assembly, body: Assembly) returns (r: Fragment)
    requires Sane(c.Contents()) && Sane(body.Contents())
    ensures r.Built? ==> fresh(r.fragment) && r.fragment.usedTags <= MAX_TAGS
    ensures r.Built? ==>
              TranslateLoop(whileTrue, Some(c.Contents()), Some(body.Contents())) == Some(r.fragment.Contents())
    ensures r.Rejected? ==> TranslateLoop(whileTrue, Some(c.Contents()), Some(body.Contents())).None?
  {
    hide Sane, AddCode, AddTo, AddJump, AddJumpI, Deposit, Mark;
    if c.deposit != 1 { return Rejected; }
    var m := new Assembly();
    var begin, status := m.NewTag();
    if status != Fine { return TooManyTags; }
    ItemDeposits(begin);
    m.Append(Mark(begin));
    ghost var start := m.Contents();
    status := m.AppendFragment(c);
    if status != Fine { return TooManyTags; }
    CodeDeposit(start, c.Contents());
    if whileTrue { m.Append(Operation(ISZERO)); }
    ghost var b := m.Contents();
    var end;
    end, status := m.AppendJumpI();
    if status != Fine { return TooManyTags; }
    JumpDeposit(WithTag(b), end);
    status := m.AppendTrimmed(body, 0);
    if status != Fine { return Trouble(status); }
    ToDeposit(AddJumpI(WithTag(b), end), body.Contents(), 0);
    JumpDeposit(m.Contents(), begin);
    m.AppendJumpTo(begin);
    m.Append(Mark(end));
    r := Built(m);
  }

  method CompileFor(init: Assembly, c: Assembly, post: Assembly, body: Assembly) returns (r: Fragment)
    requires Sane(init.Contents()) && Sane(c.Contents()) && Sane(post.Contents()) && Sane(body.Contents())
    ensures r.Built? ==>
              fresh(r.fragment) && r.fragment.usedTags <= MAX_TAGS && TranslateFor(Some(init.Contents()), Some(c.Contents()), Some(post.Contents()), Some(body.Contents())) == Some(r.fragment.Contents())
    ensures r.Rejected? ==> TranslateFor(Some(init.Contents()), Some(c.Contents()), Some(post.Contents()), Some(body.Contents())).None?
  {
    hide Sane, AddCode, AddTo, AddJump, AddJumpI, Deposit, Mark;
    if c.deposit != 1 { return Rejected; }
    var m := new Assembly();
    var status := m.AppendTrimmed(init, 0);
    if status != Fine { return Trouble(status); }
    ToDeposit(EMPTY, init.Contents(), 0);
    var begin;
    begin, status := m.NewTag();
    if status != Fine { return TooManyTags; }
    ItemDeposits(begin);
    m.Append(Mark(begin));
    ghost var start := m.Contents();
    status := m.AppendFragment(c);
    if status != Fine { return TooManyTags; }
    CodeDeposit(start, c.Contents());
    m.Append(Operation(ISZERO));
    ghost var a := m.Contents();
    var end;
    end, status := m.AppendJumpI();
    if status != Fine { return TooManyTags; }
    JumpDeposit(WithTag(a), end);
    ghost var h := m.Contents();
    status := m.AppendTrimmed(body, 0);
    if status != Fine { return Trouble(status); }
    ToDeposit(h, body.Contents(), 0);
    ghost var b := m.Contents();
    status := m.AppendTrimmed(post, 0);
    if status != Fine { return Trouble(status); }
    ToDeposit(b, post.Contents(), 0);
    JumpDeposit(m.Contents(), begin);
    m.AppendJumpTo(begin);
    m.Append(Mark(end));
    r := Built(m);
  }

  method CompileBinary(op: Opcode, negate: bool, x: Assembly, y: Assembly) returns (r: Fragment)
    requires IsBinaryOp(op) && Sane(x.Contents()) && Sane(y.Contents())
    ensures r.Built? ==>
              fresh(r.fragment) && r.fragment.usedTags <= MAX_TAGS && x.deposit == 1 == y.deposit &&
              var c := AddItem(AddCode(AddCode(EMPTY, y.Contents()), x.Contents()), Operation(op));
              r.fragment.Contents() == if negate then AddItem(c, Operation(ISZERO)) else c
    ensures r.Rejected? ==> x.deposit != 1 || y.deposit != 1
  {
    hide Sane, AddCode, Deposit, IsBinaryOp;
    if x.deposit != 1 || y.deposit != 1 { return Rejected; }
    var m := new Assembly();
    var status := m.AppendFragment(y);
    if status != Fine { return TooManyTags; }
    CodeDeposit(EMPTY, y.Contents());
    ghost var a := m.Contents();
    status := m.AppendFragment(x);
    if status != Fine { return TooManyTags; }
    CodeDeposit(a, x.Contents());
    BinaryDeposit(x.Contents(), y.Contents(), op);
    m.Append(Operation(op));
    if negate { m.Append(Operation(ISZERO)); }
    r := Built(m);
  }

  method CompileUnary(op: Opcode, x: Assembly) returns (r: Fragment)
    requires IsUnaryOp(op) && Sane(x.Contents())
    ensures r.Built? ==> fresh(r.fragment) && r.fragment.usedTags <= MAX_TAGS && x.deposit == 1
    ensures r.Built? ==> r.fragment.Contents() == AddItem(AddCode(EMPTY, x.Contents()), Operation(op))
    ensures r.Rejected? ==> x.deposit != 1
  {
    hide Sane, AddCode, Deposit;
    if x.deposit != 1 { return Rejected; }
    var m := new Assembly();
    var status := m.AppendFragment(x);
    if status != Fine { return TooManyTags; }
    CodeDeposit(EMPTY, x.Contents());
    m.Append(Operation(op));
    r := Built(m);
  }

  // ----- constructs with any number of parts -----

  lemma {:induction false} ArgumentsFail(c: Code, es: Exprs, k: nat)
    requires k <= Length(es) && AddArguments(c, Drop(es, k)).None?
    ensures AddArguments(c, es).None?
    decreases k
  {
    hide Translate, AddTo;
    if k > 0 { ArgumentsFail(c, es.tail, k - 1); }
  }

  /** Operands, the last one first. */
  method CompileArguments(es: Exprs, code: seq<Assembly>) returns (r: Fragment)
    requires Compiled(es, code)
    ensures r.Built? ==> fresh(r.fragment) && r.fragment.usedTags <= MAX_TAGS
    ensures r.Built? ==> AddArguments(EMPTY, es) == Some(r.fragment.Contents())
    ensures r.Rejected? ==> AddArguments(EMPTY, es).None?
  {
    hide Sane, Translate, AddTo, Compiled;
    var m := new Assembly();
    var i := |code|;
    CompiledLength(es, code);
    DropAll(es);
    while i > 0
      invariant 0 <= i <= |code| == Length(es) && Compiled(es, code) && fresh(m) && m.usedTags <= MAX_TAGS
      invariant AddArguments(EMPTY, Drop(es, i)) == Some(m.Contents())
    {
      CompiledAt(es, code, i - 1);
      ArgumentDeposit(EMPTY, Drop(es, i));
      var status := m.AppendTrimmed(code[i - 1], 1);
      if status.Invalid? {
        ArgumentsFail(EMPTY, es, i - 1);
        return Rejected;
      }
      if status.Exhausted? { return TooManyTags; }
      i := i - 1;
    }
    r := Built(m);
  }

  lemma {:induction false} AllOneCompiled(es: Exprs, code: seq<Assembly>)
    requires Compiled(es, code)
    ensures AllOne(es) == forall i :: 0 <= i < |code| ==> code[i].deposit == 1
    decreases es
  {
    hide Translate;
    if es.Cons? {
      AllOneCompiled(es.tail, code[1..]);
      assert forall i :: 1 <= i < |code| ==> code[i] == code[1..][i - 1];
    }
  }

  method RequireOne(es: Exprs, code: seq<Assembly>) returns (ok: bool)
    requires Compiled(es, code)
    ensures ok == AllOne(es)
  {
    hide Compiled, AllOne;
    AllOneCompiled(es, code);
    for i := 0 to |code|
      invariant forall j :: 0 <= j < i ==> code[j].deposit == 1
    {
      if code[i].deposit != 1 { return false; }
    }
    ok := true;
  }

  method AppendTimes(m: Assembly, op: Opcode, n: nat)
    requires IsArithOp(op) && m.deposit >= n
    modifies m
    ensures m.Contents() == AddTimes(old(m.Contents()), Operation(op), n) && m.usedTags == old(m.usedTags)
  {
    hide Deposit, IsArithOp;
    for i := 0 to n
      invariant m.Contents() == AddTimes(old(m.Contents()), Operation(op), i) && m.usedTags == old(m.usedTags)
    {
      TimesDeposit(old(m.Contents()), op, i);
      m.Append(Operation(op));
    }
  }

  lemma {:induction false} SequenceNext(c: Code, es: Exprs)
    requires es.Cons? && es.tail.Cons? && Translate(es.head).Some?
    ensures var d := AddTo(c, Translate(es.head).value, 0);
            AddSequence(c, es) == if d.None? then None else AddSequence(d.value, es.tail)
  {
    hide Translate, AddTo;
  }

  method CompileSequence(es: Exprs, code: seq<Assembly>) returns (r: Fragment)
    requires Compiled(es, code)
    ensures r.Built? ==> fresh(r.fragment) && r.fragment.usedTags <= MAX_TAGS
    ensures r.Built? ==> AddSequence(EMPTY, es) == Some(r.fragment.Contents())
    ensures r.Rejected? ==> AddSequence(EMPTY, es).None?
  {
    hide Sane, Translate, AddTo, AddCode, Compiled;
    var m := new Assembly();
    var i := 0;
    CompiledLength(es, code);
    DropAll(es);
    while i < |code|
      invariant 0 <= i <= |code| == Length(es) && Compiled(es, code) && fresh(m) && m.usedTags <= MAX_TAGS
      invariant i < |code| ==> m.deposit == 0 && AddSequence(EMPTY, es) == AddSequence(m.Contents(), Drop(es, i))
      invariant i == |code| ==> AddSequence(EMPTY, es) == Some(m.Contents())
    {
      CompiledAt(es, code, i);
      ghost var c := m.Contents();
      var status;
      if i + 1 < |code| {
        DropNext(es, i + 1);
        SequenceNext(c, Drop(es, i));
        status := m.AppendTrimmed(code[i], 0);
        ToDeposit(c, code[i].Contents(), 0);
      } else {
        status := m.AppendFragment(code[i]);
      }
      if status.Invalid? { return Rejected; }
      if status.Exhausted? { return TooManyTags; }
      i := i + 1;
    }
    r := Built(m);
  }

  /** && and ||: an early value, then operands with a way out, then the last operand instead. */
  method CompileShortCircuit(isOr: bool, es: Exprs, code: seq<Assembly>) returns (r: Fragment)
    requires Compiled(es, code)
    ensures r.Built? ==> fresh(r.fragment) && r.fragment.usedTags <= MAX_TAGS
    ensures r.Built? ==> Translate(ShortCircuit(isOr, es)) == Some(r.fragment.Contents())
    ensures r.Rejected? ==> Translate(ShortCircuit(isOr, es)).None?
  {
    hide Sane, AddCode, AddJumpI, Compiled, AllOne, Deposit, Mark, AddChain;
    CompiledLength(es, code);
    if |code| == 0 { return Rejected; }
    var ok := RequireOne(es, code);
    if !ok { return Rejected; }
    AllOneCompiled(es, code);
    var m := new Assembly();
    var end, status := m.NewTag();
    if status != Fine { return TooManyTags; }
    PushDeposit(if isOr then 1 else 0);
    ItemDeposits(1);
    if |code| > 1 {
      m.Append(PushWord(if isOr then 1 else 0));
      ghost var start := m.Contents();
      assert es.tail.Cons?;
      assert Translate(ShortCircuit(isOr, es)) == AddChain(isOr, start, es);
      status := CompileChain(isOr, es, code, m);
      if status != Fine { return TooManyTags; }
    } else {
      CompiledAt(es, code, 0);
      status := m.AppendFragment(code[0]);
      if status != Fine { return TooManyTags; }
      CodeDeposit(WithTag(EMPTY), code[0].Contents());
      m.Append(Mark(end));
    }
    r := Built(m);
  }

  lemma {:induction false} ChainNext(isOr: bool, c: Code, es: Exprs)
    requires es.Cons? && es.tail.Cons? && Translate(es.head).Some?
    ensures var a := AddCode(c, Translate(es.head).value);
            AddChain(isOr, c, es) == AddChain(isOr, AddJumpI(if isOr then a else AddItem(a, Operation(ISZERO)), 1), es.tail)
  {
    hide Translate, AddCode, AddJumpI, Deposit;
  }

  lemma {:induction false} ChainLast(isOr: bool, c: Code, es: Exprs)
    requires es.Cons? && es.tail.Nil? && Translate(es.head).Some?
    ensures AddChain(isOr, c, es) == Some(AddItem(AddCode(AddItem(c, Operation(POP)), Translate(es.head).value), Mark(1)))
  {
    hide Translate, AddCode, Deposit, Mark;
  }

  method CompileChain(isOr: bool, es: Exprs, code: seq<Assembly>, m: Assembly) returns (status: Status)
    requires Compiled(es, code) && |code| > 0 && m !in code && m.deposit == 1
    requires forall i :: 0 <= i < |code| ==> code[i].deposit == 1
    modifies m
    ensures !status.Invalid?
    ensures (status.Fine? ==> m.usedTags <= MAX_TAGS && AddChain(isOr, old(m.Contents()), es) == Some(m.Contents()))
  {
    hide Sane, Translate, AddCode, AddJumpI, Compiled, AllOne, Deposit, Mark, AddChain;
    CompiledLength(es, code);
    ItemDeposits(1);
    var i := 1;
    while i < |code|
      invariant 1 <= i <= |code| == Length(es) && Compiled(es, code)
      invariant forall i :: 0 <= i < |code| ==> code[i].deposit == 1
      invariant Drop(es, i - 1).Cons? && m.deposit == 1
      invariant AddChain(isOr, old(m.Contents()), es) == AddChain(isOr, m.Contents(), Drop(es, i - 1))
    {
      CompiledAt(es, code, i - 1);
      DropNext(es, i);
      ghost var c := m.Contents();
      ChainNext(isOr, c, Drop(es, i - 1));
      status := m.AppendFragment(code[i - 1]);
      if status != Fine { return; }
      CodeDeposit(c, code[i - 1].Contents());
      if !isOr { m.Append(Operation(ISZERO)); }
      JumpDeposit(m.Contents(), 1);
      m.AppendJumpITo(1);
      i := i + 1;
    }
    CompiledAt(es, code, i - 1);
    DropAll(es);
    ChainLast(isOr, m.Contents(), Drop(es, i - 1));
    m.Append(Operation(POP));
    ghost var b := m.Contents();
    status := m.AppendFragment(code[i - 1]);
    if status != Fine { return; }
    CodeDeposit(b, code[i - 1].Contents());
    m.Append(Mark(1));
  }

  // ----- SWITCH -----

  function Skip(cases: Cases, n: nat): Cases
    requires n <= Count(cases)
  {
    if n == 0 then cases else Skip(cases.rest, n - 1)
  }

  ghost predicate CasesCompiled(cases: Cases, conditions: seq<Assembly>, bodies: seq<Assembly>)
    reads conditions, bodies
    decreases cases
  {
    if cases.NoCase? then conditions == bodies == []
    else
      && conditions != [] && bodies != []
      && Translate(cases.condition) == Some(conditions[0].Contents()) && Translate(cases.body) == Some(bodies[0].Contents())
      && CasesCompiled(cases.rest, conditions[1..], bodies[1..])
  }

  lemma {:induction false} CasesCompiledAt(cases: Cases, conditions: seq<Assembly>, bodies: seq<Assembly>, i: nat)
    requires CasesCompiled(cases, conditions, bodies) && i < |conditions|
    ensures |conditions| == |bodies| == Count(cases)
    ensures var c := Skip(cases, i);
            && c.Case? && c.rest == Skip(cases, i + 1)
            && Translate(c.condition) == Some(conditions[i].Contents()) && Translate(c.body) == Some(bodies[i].Contents())
    ensures Sane(conditions[i].Contents()) && Sane(bodies[i].Contents())
    decreases cases
  {
    hide Translate, Sane;
    CasesCompiledLength(cases, conditions, bodies);
    TranslateSane(cases.condition);
    TranslateSane(cases.body);
    if i > 0 { CasesCompiledAt(cases.rest, conditions[1..], bodies[1..], i - 1); }
  }

  lemma {:induction false} CasesCompiledLength(cases: Cases, conditions: seq<Assembly>, bodies: seq<Assembly>)
    requires CasesCompiled(cases, conditions, bodies)
    ensures |conditions| == |bodies| == Count(cases)
    decreases cases
  {
    hide Translate;
    if cases.Case? { CasesCompiledLength(cases.rest, conditions[1..], bodies[1..]); }
  }

  /** What the conditions not yet appended will add. */
  lemma {:induction false} ConditionsNext(c: Code, cases: Cases)
    requires cases.Case? && Translate(cases.condition).Some?
    ensures var x := Translate(cases.condition).value;
            var a := AddCode(c, x);
            var rest := AddConditions(AddJumpI(WithTag(a), a.usedTags), cases.rest);
            AddConditions(c, cases) == if x.deposit != 1 || rest.None? then None else Some(Heads(rest.value.code, [a.usedTags] + rest.value.tags))
  {
    hide Translate, AddCode, AddJumpI;
  }

  function Prepend(tags: seq<nat>, heads: Option<Heads>): Option<Heads> {
    if heads.None? then None else Some(Heads(heads.value.code, tags + heads.value.tags))
  }

  method AppendConditions(m: Assembly, cases: Cases, conditions: seq<Assembly>,
      ghost bodies: seq<Assembly>) returns (status: Status, tags: seq<nat>)
    requires CasesCompiled(cases, conditions, bodies) && m !in conditions && m !in bodies && m.deposit == 0
    requires m.usedTags <= MAX_TAGS
    modifies m
    ensures status.Fine? ==> m.deposit == 0 && m.usedTags <= MAX_TAGS && |tags| == Count(cases)
    ensures status.Fine? ==> AddConditions(old(m.Contents()), cases) == Some(Heads(m.Contents(), tags))
    ensures status.Invalid? ==> AddConditions(old(m.Contents()), cases).None?
  {
    hide Sane, Translate, AddCode, AddJumpI, CasesCompiled, AddConditions;
    CasesCompiledLength(cases, conditions, bodies);
    tags := [];
    PrependNothing(AddConditions(m.Contents(), cases));
    var i := 0;
    while i < |conditions|
      invariant 0 <= i <= |conditions| == Count(cases) && CasesCompiled(cases, conditions, bodies) && |tags| == i
      invariant m.deposit == 0 && m.usedTags <= MAX_TAGS
      invariant AddConditions(old(m.Contents()), cases) == Prepend(tags, AddConditions(m.Contents(), Skip(cases, i)))
    {
      CasesCompiledAt(cases, conditions, bodies, i);
      ghost var c := m.Contents();
      ConditionsNext(c, Skip(cases, i));
      if conditions[i].deposit != 1 { return Invalid, tags; }
      status := m.AppendFragment(conditions[i]);
      if status != Fine { return; }
      CodeDeposit(c, conditions[i].Contents());
      ghost var a := m.Contents();
      var tag;
      tag, status := m.AppendJumpI();
      if status != Fine { return; }
      JumpDeposit(WithTag(a), tag);
      PrependNext(tags, tag, AddConditions(m.Contents(), Skip(cases, i + 1)));
      tags := tags + [tag];
      i := i + 1;
    }
    SkipAll(cases);
    ConditionsEnd(m.Contents(), Skip(cases, i), tags);
    status := Fine;
  }

  lemma {:induction false} PrependNothing(heads: Option<Heads>)
    ensures Prepend([], heads) == heads
  {
    if heads.Some? { assert [] + heads.value.tags == heads.value.tags; }
  }

  lemma {:induction false} PrependNext(tags: seq<nat>, tag: nat, heads: Option<Heads>)
    ensures Prepend(tags, Prepend([tag], heads)) == Prepend(tags + [tag], heads)
  {
    if heads.Some? { assert tags + ([tag] + heads.value.tags) == tags + [tag] + heads.value.tags; }
  }

  lemma {:induction false} SkipAll(cases: Cases)
    ensures Skip(cases, Count(cases)).NoCase?
  {
    if cases.Case? { SkipAll(cases.rest); }
  }

  lemma {:induction false} ConditionsEnd(c: Code, cases: Cases, tags: seq<nat>)
    requires cases.NoCase?
    ensures Prepend(tags, AddConditions(c, cases)) == Some(Heads(c, tags))
  {
    assert tags + [] == tags;
  }

  lemma {:induction false} BodiesNext(c: Code, cases: Cases, tags: seq<nat>, end: nat, deposit: int, isFirst: bool)
    requires cases.Case? && |tags| > 0 && Translate(cases.body).Some?
    ensures var rest, x := AddBodies(c, cases.rest, tags[1..], end, deposit, false), Translate(cases.body).value;
            AddBodies(c, cases, tags, end, deposit, isFirst) ==
            if rest.None? || x.deposit != deposit then None
            else
              var a := AddCode(AddItem(rest.value, Mark(tags[0])), x);
              Some(if isFirst then a else AddJump(a, end))
  {
    hide Translate, AddCode, AddJump, Mark, Deposit;
  }

  lemma {:induction false} BodiesFail(c: Code, cases: Cases, tags: seq<nat>, end: nat, deposit: int, isFirst: bool,
      k: nat, first: bool)
    requires k <= Count(cases) == |tags| && AddBodies(c, Skip(cases, k), tags[k..], end, deposit, first).None?
    requires (k > 0 ==> !first) && (k == 0 ==> first == isFirst)
    ensures AddBodies(c, cases, tags, end, deposit, isFirst).None?
    decreases k
  {
    hide Translate, AddCode, AddJump, Mark;
    if k == 0 {
      assert tags[0..] == tags;
    } else {
      assert tags[k..] == tags[1..][k - 1..];
      BodiesFail(c, cases.rest, tags[1..], end, deposit, false, k - 1, false);
    }
  }

  method AppendBodies(m: Assembly, cases: Cases, ghost conditions: seq<Assembly>, bodies: seq<Assembly>,
      tags: seq<nat>, end: nat, target: nat) returns (status: Status)
    requires CasesCompiled(cases, conditions, bodies) && m !in conditions && m !in bodies && m.deposit >= 0
    requires |tags| == Count(cases) && m.usedTags <= MAX_TAGS
    modifies m
    ensures status.Fine? ==> m.deposit >= 0 && m.usedTags <= MAX_TAGS
    ensures status.Fine? ==> AddBodies(old(m.Contents()), cases, tags, end, target, true) == Some(m.Contents())
    ensures status.Invalid? ==> AddBodies(old(m.Contents()), cases, tags, end, target, true).None?
  {
    hide Sane, Translate, AddCode, AddJump, CasesCompiled, AddBodies, Mark, Deposit;
    CasesCompiledLength(cases, conditions, bodies);
    SkipAll(cases);
    var i := |bodies|;
    NoMoreBodies(m.Contents(), Skip(cases, i), tags[i..], end, target, i == 0);
    while i > 0
      invariant 0 <= i <= |bodies| == |conditions| == |tags| == Count(cases) && CasesCompiled(cases, conditions, bodies)
      invariant m.deposit >= 0 && m.usedTags <= MAX_TAGS
      invariant AddBodies(old(m.Contents()), Skip(cases, i), tags[i..], end, target, i == 0) == Some(m.Contents())
    {
      CasesCompiledAt(cases, conditions, bodies, i - 1);
      ghost var c := m.Contents();
      BodiesNext(old(m.Contents()), Skip(cases, i - 1), tags[i - 1..], end, target, i == 1);
      assert tags[i - 1..][1..] == tags[i..];
      ItemDeposits(tags[i - 1]);
      m.Append(Mark(tags[i - 1]));
      if bodies[i - 1].deposit != target {
        BodiesFail(old(m.Contents()), cases, tags, end, target, true, i - 1, i == 1);
        return Invalid;
      }
      ghost var b := m.Contents();
      status := m.AppendFragment(bodies[i - 1]);
      if status != Fine { return; }
      CodeDeposit(b, bodies[i - 1].Contents());
      if i != 1 {
        JumpDeposit(m.Contents(), end);
        m.AppendJumpTo(end);
      }
      i := i - 1;
    }
    assert tags[0..] == tags;
    status := Fine;
  }

  lemma {:induction false} NoMoreBodies(c: Code, cases: Cases, tags: seq<nat>, end: nat, deposit: int, isFirst: bool)
    requires cases.NoCase?
    ensures AddBodies(c, cases, tags, end, deposit, isFirst) == Some(c)
  {
  }

  method CompileSwitch(cases: Cases, conditions: seq<Assembly>, bodies: seq<Assembly>, fallback: Assembly,
      hasFallback: bool) returns (r: Fragment)
    requires CasesCompiled(cases, conditions, bodies) && Sane(fallback.Contents())
    ensures r.Built? ==> fresh(r.fragment) && r.fragment.usedTags <= MAX_TAGS
    ensures r.Built? ==> TranslateSwitch(cases, fallback.Contents(), hasFallback) == Some(r.fragment.Contents())
    ensures r.Rejected? ==> TranslateSwitch(cases, fallback.Contents(), hasFallback).None?
  {
    hide Sane, Translate, AddCode, AddJump, CasesCompiled, AddBodies, AddConditions, Mark, Deposit;
    SaneCount(fallback.Contents());
    CasesCompiledLength(cases, conditions, bodies);
    var target: nat := if hasFallback then fallback.deposit else 0;
    var m := new Assembly();
    var status, tags := AppendConditions(m, cases, conditions, bodies);
    if status != Fine { return Trouble(status); }
    ghost var heads := m.Contents();
    if hasFallback {
      status := m.AppendFragment(fallback);
      if status != Fine { return TooManyTags; }
      CodeDeposit(heads, fallback.Contents());
    }
    if |conditions| > 0 {
      ghost var a := m.Contents();
      var end;
      end, status := m.AppendJump();
      if status != Fine { return TooManyTags; }
      JumpDeposit(WithTag(a), end);
      status := AppendBodies(m, cases, conditions, bodies, tags, end, target);
      if status != Fine { return Trouble(status); }
      m.Append(Mark(end));
    }
    m.deposit := target;
    r := Built(m);
  }

  // ----- trees -----

  /** Some operand is not accepted. */
  predicate Untranslatable(es: Exprs)
    decreases es
  {
    es.Cons? && (Translate(es.head).None? || Untranslatable(es.tail))
  }

  predicate UntranslatableCases(cases: Cases)
    decreases cases
  {
    cases.Case? && (Translate(cases.condition).None? || Translate(cases.body).None? || UntranslatableCases(cases.rest))
  }

  lemma {:induction false} UntranslatableArguments(c: Code, es: Exprs)
    requires Untranslatable(es)
    ensures AddArguments(c, es).None? && !AllOne(es)
    decreases es
  {
    hide Translate, AddTo;
    if Translate(es.head).Some? { UntranslatableArguments(c, es.tail); }
  }

  lemma {:induction false} UntranslatableSequence(c: Code, es: Exprs)
    requires Untranslatable(es)
    ensures AddSequence(c, es).None?
    decreases es
  {
    hide Translate, AddTo, AddCode;
    if Translate(es.head).Some? && es.tail.Cons? {
      var d := AddTo(c, Translate(es.head).value, 0);
      if d.Some? { UntranslatableSequence(d.value, es.tail); }
    }
  }

  lemma {:induction false} UntranslatableSwitch(cases: Cases, fallback: Code, hasFallback: bool)
    requires UntranslatableCases(cases)
    ensures TranslateSwitch(cases, fallback, hasFallback).None?
  {
    hide Translate, AddCode, AddJump, Mark, AddConditions, AddBodies;
    if AddConditions(EMPTY, cases).Some? {
      var tags := AddConditions(EMPTY, cases).value.tags;
      HeadsCount(EMPTY, cases);
      forall c, end, deposit ensures AddBodies(c, cases, tags, end, deposit, true).None? {
        UntranslatableBodies(EMPTY, c, cases, tags, end, deposit, true);
      }
    }
  }

  lemma {:induction false} HeadsCount(c: Code, cases: Cases)
    ensures AddConditions(c, cases).Some? ==> |AddConditions(c, cases).value.tags| == Count(cases)
    decreases cases
  {
    hide Translate, AddCode, AddJumpI;
    if AddConditions(c, cases).Some? && cases.Case? {
      var a := AddCode(c, Translate(cases.condition).value);
      HeadsCount(AddJumpI(WithTag(a), a.usedTags), cases.rest);
    }
  }

  lemma {:induction false} UntranslatableBodies(h: Code, c: Code, cases: Cases, tags: seq<nat>, end: nat, deposit: int,
      isFirst: bool)
    requires UntranslatableCases(cases) && |tags| == Count(cases) && AddConditions(h, cases).Some?
    ensures AddBodies(c, cases, tags, end, deposit, isFirst).None?
    decreases cases
  {
    hide Translate, AddCode, AddJump, AddJumpI, Mark;
    if Translate(cases.body).Some? {
      var a := AddCode(h, Translate(cases.condition).value);
      UntranslatableBodies(AddJumpI(WithTag(a), a.usedTags), c, cases.rest, tags[1..], end, deposit, false);
    }
  }

  method CompileAll(es: Exprs) returns (status: Status, code: seq<Assembly>)
    ensures status.Fine? ==> (forall i :: 0 <= i < |code| ==> fresh(code[i])) && Compiled(es, code)
    ensures status.Invalid? ==> Untranslatable(es)
    decreases es, 0
  {
    hide Translate;
    if es.Nil? { return Fine, []; }
    var first := Compile(es.head);
    if first.Rejected? { return Invalid, []; }
    if first.TooManyTags? { return Exhausted, []; }
    status, code := CompileAll(es.tail);
    if status.Fine? {
      code := [first.fragment] + code;
    }
  }

  method CompileCases(cases: Cases) returns (status: Status, conditions: seq<Assembly>, bodies: seq<Assembly>)
    ensures status.Fine? ==> (forall i :: 0 <= i < |conditions| ==> fresh(conditions[i]))
    ensures status.Fine? ==> (forall i :: 0 <= i < |bodies| ==> fresh(bodies[i]))
    ensures status.Fine? ==> CasesCompiled(cases, conditions, bodies)
    ensures status.Invalid? ==> UntranslatableCases(cases)
    decreases cases, 0
  {
    hide Translate;
    if cases.NoCase? { return Fine, [], []; }
    var condition := Compile(cases.condition);
    if condition.Rejected? { return Invalid, [], []; }
    if condition.TooManyTags? { return Exhausted, [], []; }
    var body := Compile(cases.body);
    if body.Rejected? { return Invalid, [], []; }
    if body.TooManyTags? { return Exhausted, [], []; }
    status, conditions, bodies := CompileCases(cases.rest);
    if status.Fine? { conditions, bodies := [condition.fragment] + conditions, [body.fragment] + bodies; }
  }

  /** The code of a tree: exactly its translation, and an error exactly where that has none. */
  method Compile(e: Expr) returns (r: Fragment)
    ensures r.Built? ==>
              fresh(r.fragment) && r.fragment.usedTags <= MAX_TAGS && Translate(e) == Some(r.fragment.Contents())
    ensures r.Rejected? ==> Translate(e).None?
    decreases e, 2
  {
    hide *;
    match e {
      case Literal(_) => r := CompileLiteral(e);
      case Call(_, _) => r := CompileCall(e);
      case Arith(_, _) => r := CompileArith(e);
      case Binary(_, _, _, _) => r := CompileComparison(e);
      case Unary(_, _) => r := CompileNegation(e);
      case Sequence(_) => r := CompileParts(e);
      case If(_, _, _) => r := CompileBranches(e);
      case When(_, _, _) => r := CompileWhenTree(e);
      case Loop(_, _, _) => r := CompileLoopTree(e);
      case For(_, _, _, _) => r := CompileForTree(e);
      case Switch(_, _) => r := CompileSwitchTree(e);
      case ShortCircuit(_, _) => r := CompileOperands(e);
    }
  }

  method CompileLiteral(e: Expr) returns (r: Fragment)
    requires e.Literal?
    ensures r.Built? && fresh(r.fragment) && r.fragment.usedTags <= MAX_TAGS
    ensures Translate(e) == Some(r.fragment.Contents())
  {
    hide Deposit;
    var m := new Assembly();
    m.Append(PushWord(e.value));
    r := Built(m);
  }

  method CompileCall(e: Expr) returns (r: Fragment)
    requires e.Call?
    ensures r.Built? ==>
              fresh(r.fragment) && r.fragment.usedTags <= MAX_TAGS && Translate(e) == Some(r.fragment.Contents())
    ensures r.Rejected? ==> Translate(e).None?
    decreases e, 1
  {
    hide Deposit, InfoOf, ValidFunctional, AddArguments, Compiled, Untranslatable;
    var status, code := CompileAll(e.args);
    if status.Invalid? { UntranslatableArguments(EMPTY, e.args); }
    if status != Fine { return Trouble(status); }
    CompiledLength(e.args, code);
    if !ValidFunctional(e.op) || |code| != InfoOf(e.op).args { return Rejected; }
    r := CompileArguments(e.args, code);
    if !r.Built? { return; }
    ArgumentDeposit(EMPTY, e.args);
    r.fragment.Append(Operation(e.op));
  }

  method CompileArith(e: Expr) returns (r: Fragment)
    requires e.Arith?
    ensures r.Built? ==>
              fresh(r.fragment) && r.fragment.usedTags <= MAX_TAGS && Translate(e) == Some(r.fragment.Contents())
    ensures r.Rejected? ==> Translate(e).None?
    decreases e, 1
  {
    hide Deposit, IsArithOp, AddArguments, Compiled, Untranslatable, AllOne, AddTimes;
    var status, code := CompileAll(e.args);
    if status.Invalid? { UntranslatableArguments(EMPTY, e.args); }
    if status != Fine { return Trouble(status); }
    CompiledLength(e.args, code);
    if !IsArithOp(e.op) || |code| < 1 { return Rejected; }
    var ok := RequireOne(e.args, code);
    if !ok { return Rejected; }
    r := CompileArguments(e.args, code);
    if !r.Built? { return; }
    ArgumentDeposit(EMPTY, e.args);
    AppendTimes(r.fragment, e.op, |code| - 1);
  }

  method CompileComparison(e: Expr) returns (r: Fragment)
    requires e.Binary?
    ensures r.Built? ==>
              fresh(r.fragment) && r.fragment.usedTags <= MAX_TAGS && Translate(e) == Some(r.fragment.Contents())
    ensures r.Rejected? ==> Translate(e).None?
    decreases e, 1
  {
    hide Deposit, IsBinaryOp, AddCode, Sane;
    var x := Compile(e.first);
    if !x.Built? { return x; }
    var y := Compile(e.second);
    if !y.Built? { return y; }
    if !IsBinaryOp(e.op) { return Rejected; }
    TranslateSane(e.first);
    TranslateSane(e.second);
    r := CompileBinary(e.op, e.negate, x.fragment, y.fragment);
  }

  method CompileNegation(e: Expr) returns (r: Fragment)
    requires e.Unary?
    ensures r.Built? ==>
              fresh(r.fragment) && r.fragment.usedTags <= MAX_TAGS && Translate(e) == Some(r.fragment.Contents())
    ensures r.Rejected? ==> Translate(e).None?
    decreases e, 1
  {
    hide Deposit, IsUnaryOp, AddCode, Sane;
    var x := Compile(e.first);
    if !x.Built? { return x; }
    if !IsUnaryOp(e.op) { return Rejected; }
    TranslateSane(e.first);
    r := CompileUnary(e.op, x.fragment);
  }

  method CompileParts(e: Expr) returns (r: Fragment)
    requires e.Sequence?
    ensures r.Built? ==>
              fresh(r.fragment) && r.fragment.usedTags <= MAX_TAGS && Translate(e) == Some(r.fragment.Contents())
    ensures r.Rejected? ==> Translate(e).None?
    decreases e, 1
  {
    hide Compiled, Untranslatable, AddSequence;
    var status, code := CompileAll(e.args);
    if status.Invalid? { UntranslatableSequence(EMPTY, e.args); }
    if status != Fine { return Trouble(status); }
    r := CompileSequence(e.args, code);
  }

  method CompileOperands(e: Expr) returns (r: Fragment)
    requires e.ShortCircuit?
    ensures r.Built? ==>
              fresh(r.fragment) && r.fragment.usedTags <= MAX_TAGS && Translate(e) == Some(r.fragment.Contents())
    ensures r.Rejected? ==> Translate(e).None?
    decreases e, 1
  {
    hide Compiled, Untranslatable, AddChain, AllOne;
    var status, code := CompileAll(e.args);
    if status.Invalid? { UntranslatableArguments(EMPTY, e.args); }
    if status != Fine { return Trouble(status); }
    r := CompileShortCircuit(e.isOr, e.args, code);
  }

  method CompileBranches(e: Expr) returns (r: Fragment)
    requires e.If?
    ensures r.Built? ==>
              fresh(r.fragment) && r.fragment.usedTags <= MAX_TAGS && Translate(e) == Some(r.fragment.Contents())
    ensures r.Rejected? ==> Translate(e).None?
    decreases e, 1
  {
    hide TranslateIf, Sane;
    IfParts(Translate(e.condition), Translate(e.yes), Translate(e.no));
    var c := Compile(e.condition);
    if !c.Built? { return c; }
    var yes := Compile(e.yes);
    if !yes.Built? { return yes; }
    var no := Compile(e.no);
    if !no.Built? { return no; }
    TranslateSane(e.condition);
    TranslateSane(e.yes);
    TranslateSane(e.no);
    r := CompileIf(c.fragment, yes.fragment, no.fragment);
  }

  method CompileWhenTree(e: Expr) returns (r: Fragment)
    requires e.When?
    ensures r.Built? ==>
              fresh(r.fragment) && r.fragment.usedTags <= MAX_TAGS && Translate(e) == Some(r.fragment.Contents())
    ensures r.Rejected? ==> Translate(e).None?
    decreases e, 1
  {
    hide TranslateWhen, Sane;
    WhenParts(e.whenTrue, Translate(e.condition), Translate(e.body));
    var c := Compile(e.condition);
    if !c.Built? { return c; }
    var body := Compile(e.body);
    if !body.Built? { return body; }
    TranslateSane(e.condition);
    TranslateSane(e.body);
    r := CompileWhen(e.whenTrue, c.fragment, body.fragment);
  }

  method CompileLoopTree(e: Expr) returns (r: Fragment)
    requires e.Loop?
    ensures r.Built? ==>
              fresh(r.fragment) && r.fragment.usedTags <= MAX_TAGS && Translate(e) == Some(r.fragment.Contents())
    ensures r.Rejected? ==> Translate(e).None?
    decreases e, 1
  {
    hide AddLoop, Sane;
    var c := Compile(e.condition);
    if !c.Built? { return c; }
    var body := Compile(e.body);
    if !body.Built? { return body; }
    TranslateSane(e.condition);
    TranslateSane(e.body);
    r := CompileLoop(e.whileTrue, c.fragment, body.fragment);
  }

  method CompileForTree(e: Expr) returns (r: Fragment)
    requires e.For?
    ensures r.Built? ==>
              fresh(r.fragment) && r.fragment.usedTags <= MAX_TAGS && Translate(e) == Some(r.fragment.Contents())
    ensures r.Rejected? ==> Translate(e).None?
    decreases e, 1
  {
    hide TranslateFor, Sane;
    if Translate(e).Some? { ForParts(e); }
    var init := Compile(e.init);
    if !init.Built? { return init; }
    var c := Compile(e.condition);
    if !c.Built? { return c; }
    var post := Compile(e.post);
    if !post.Built? { return post; }
    var body := Compile(e.body);
    if !body.Built? { return body; }
    TranslateSane(e.init);
    TranslateSane(e.condition);
    TranslateSane(e.post);
    TranslateSane(e.body);
    r := CompileFor(init.fragment, c.fragment, post.fragment, body.fragment);
  }

  lemma {:induction false} MoreThanOne(es: Exprs)
    ensures Length(es) > 1 <==> es.Cons? && es.tail.Cons?
  {
    if es.Cons? && es.tail.Cons? { assert Length(es.tail) >= 1; }
  }

  method CompileSwitchTree(e: Expr) returns (r: Fragment)
    requires e.Switch?
    ensures r.Built? ==>
              fresh(r.fragment) && r.fragment.usedTags <= MAX_TAGS && Translate(e) == Some(r.fragment.Contents())
    ensures r.Rejected? ==> Translate(e).None?
    decreases e, 1
  {
    hide TranslateSwitch, Sane, CasesCompiled, UntranslatableCases, Length;
    MoreThanOne(e.fallback);
    if e.fallback.Cons? && e.fallback.tail.Cons? { return Rejected; }
    if e.cases.NoCase? && e.fallback.Nil? { return Rejected; }
    var status, conditions, bodies := CompileCases(e.cases);
    if status != Fine {
      if status.Invalid? {
        UntranslatableSwitch(e.cases, EMPTY, false);
        if e.fallback.Cons? && Translate(e.fallback.head).Some? { UntranslatableSwitch(e.cases, Translate(e.fallback.head).value, true); }
      }
      return Trouble(status);
    }
    EmptySane();
    if e.fallback.Nil? {
      var none := new Assembly();
      r := CompileSwitch(e.cases, conditions, bodies, none, false);
    } else {
      var fallback := Compile(e.fallback.head);
      if !fallback.Built? { return fallback; }
      TranslateSane(e.fallback.head);
      r := CompileSwitch(e.cases, conditions, bodies, fallback.fragment, true);
    }
  }

  /** A whole program: the code and a safeguarding STOP. */
  method CompileProgram(e: Expr) returns (r: Fragment)
    ensures r.Built? ==> fresh(r.fragment) && r.fragment.usedTags <= MAX_TAGS && Translate(e).Some?
    ensures r.Built? ==> Translate(e).value.usedTags <= MODULUS && r.fragment.items == Program(e)
    ensures r.Rejected? ==> Translate(e).None?
  {
    hide Translate, Sane, Deposit;
    r := Compile(e);
    if r.Built? {
      TranslateSane(e);
      SaneCount(Translate(e).value);
      r.fragment.Append(Operation(STOP));
    }
  }
}
