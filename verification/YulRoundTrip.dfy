/** Printing, scanning and parsing strict assembly gives back the tree. */
module YulRoundTrip {
  import opened Instructions
  import opened Items
  import opened Yul
  import opened YulScanner
  import opened YulPrinter
  import opened YulSpelling
  import opened YulParser

  // ----- the trees that parsing can return -----

  /** Tokens as the scanner makes them. */
  predicate TokenOk(t: Token) {
    match t
    case Word(w) => IsName(w)
    case Number(v) => IsNumber(v)
    case Text(v) => AreBytes(v)
    case LBrace => true
    case RBrace => true
    case LParen => true
    case RParen => true
    case Comma => true
    case Colon => true
    case Assign => true
    case Minus => true
    case Greater => true
  }

  predicate TokensOk(ts: seq<Token>) { forall i :: 0 <= i < |ts| ==> TokenOk(ts[i]) }

  /** A name in an expression. */
  predicate CanBeName(d: Dialect, w: string) {
    KindOf(d, w) == Plain && IsName(w) && (w in d.builtins || w !in d.instructions)
  }

  predicate AreVariables(d: Dialect, names: seq<string>) {
    forall i :: 0 <= i < |names| ==> IsVariable(d, names[i]) && IsName(names[i])
  }

  predicate IsConstant(e: Expression) { e.Literal? && if e.isText then AreBytes(e.value) else IsNumber(e.value) }

  /** Expressions that can be returned with n levels to go. */
  predicate IsExpression(d: Dialect, e: Expression, n: nat)
    decreases e, 1
  {
    && n >= 2
    && match e
       case Literal(_, _) => IsConstant(e)
       case Identifier(w) => CanBeName(d, w)
       case Operation(op, _) => InfoOf(op).ret == 1 && IsCall(d, e, n - 1)
       case Call(_, _) => IsCall(d, e, n - 1)
  }

  predicate IsCall(d: Dialect, e: Expression, n: nat)
    decreases e, 0
  {
    && n >= 1
    && match e
       case Literal(_, _) => false
       case Identifier(_) => false
       case Operation(op, args) =>
         op in d.nameOf && !IsStackShuffle(op) && |args| == InfoOf(op).args && AreExpressions(d, args, n - 1)
       case Call(f, args) => CanBeName(d, f) && AreExpressions(d, args, n - 1)
  }

  predicate AreExpressions(d: Dialect, es: seq<Expression>, n: nat)
    decreases es, 0
  {
    es == [] || (IsExpression(d, es[0], n) && AreExpressions(d, es[1..], n))
  }

  predicate IsStatement(d: Dialect, s: Statement, n: nat)
    decreases s, 0
  {
    && n >= 1
    && match s
       case Evaluate(e) => IsCall(d, e, n - 1)
       case Assignment(names, v) => n >= 2 && names != [] && AreVariables(d, names) && IsExpression(d, v, n - 1)
       case Declaration(names, init) =>
         n >= 3 && names != [] && AreVariables(d, names) && (init.Some? ==> IsExpression(d, init.value, n - 2))
       case Definition(w, ps, rs, b) =>
         && n >= 2 && IsVariable(d, w) && IsName(w) && AreVariables(d, ps) && AreVariables(d, rs)
         && (ps != [] || rs != [] ==> n >= 3) && IsBlock(d, b, n - 2)
       case Conditional(c, b) => IsExpression(d, c, n - 1) && IsBlock(d, b, n - 1)
       case Selection(e, cases) => cases != [] && IsExpression(d, e, n - 1) && AreCases(d, cases, n - 1)
       case Loop(pre, c, post, b) =>
         n >= 2 && IsBlock(d, pre, n - 2) && IsExpression(d, c, n - 2) && IsBlock(d, post, n - 2) && IsBlock(d, b, n - 2)
       case Leave => true
       case Next => true
       case Block(b) => IsBlock(d, b, n - 1)
  }

  predicate IsBlock(d: Dialect, ss: seq<Statement>, n: nat)
    decreases ss, 1
  {
    n >= 1 && AreStatements(d, ss, n - 1)
  }

  predicate AreStatements(d: Dialect, ss: seq<Statement>, n: nat)
    decreases ss, 0
  {
    ss == [] || (IsStatement(d, ss[0], n) && AreStatements(d, ss[1..], n))
  }

  predicate IsCase(d: Dialect, c: SwitchCase, n: nat)
    decreases c, 0
  {
    && n >= 1 && (c.label_.Some? ==> n >= 2 && IsConstant(c.label_.value))
    && IsBlock(d, c.body, n - 1)
  }

  /** Only the last case can be the default. */
  predicate AreCases(d: Dialect, cases: seq<SwitchCase>, n: nat)
    decreases cases, 0
  {
    cases == [] ||
    (IsCase(d, cases[0], n) && (cases[0].label_.None? ==> |cases| == 1) && AreCases(d, cases[1..], n))
  }

  /** The programs that can be parsed. */
  predicate IsProgram(d: Dialect, ss: seq<Statement>) { IsBlock(d, ss, MAX_DEPTH) }

  // ----- the tokens of a tree determine it -----

  predicate StartsExpression(ts: seq<Token>) { ts != [] && (ts[0].Word? || ts[0].Text? || ts[0].Number?) }

  lemma {:induction false} ExpressionStarts(d: Dialect, e: Expression, rest: seq<Token>)
    ensures StartsExpression(ExpressionTokens(d, e) + rest)
  {
  }

  lemma {:induction false} ExpressionBack(d: Dialect, e: Expression, rest: seq<Token>, n: nat)
    requires DialectOk(d) && IsExpression(d, e, n) && !StartsWith(rest, LParen)
    ensures ParseExpression(d, ExpressionTokens(d, e) + rest, n) == Parsed(e, rest)
    decreases e, 2
  {
    hide IsName, IsNumber, AreBytes, KindOf, InfoOf, IsStackShuffle, AreExpressions, ParseCall, ArgumentTokens;
    var ts := ExpressionTokens(d, e) + rest;
    match e
    case Literal(_, _) => assert ts[1..] == rest;
    case Identifier(_) => assert ts[1..] == rest;
    case Operation(op, args) =>
      NameBack(d, op);
      CallBack(d, e, Opcode_(op), rest, n - 1);
      assert ts[0] == Word(NameOf(d, op)) && ts[1] == LParen;
    case Call(f, args) =>
      CallBack(d, e, Name(f), rest, n - 1);
      assert ts[0] == Word(f) && ts[1] == LParen;
  }

  lemma {:induction false} NameBack(d: Dialect, op: Opcode)
    requires DialectOk(d) && op in d.nameOf
    ensures var w := NameOf(d, op);
            KindOf(d, w) == Plain && w !in d.builtins && w in d.instructions && d.instructions[w] == op && IsName(w)
  {
    hide KindOf, IsName;
  }

  predicate Starts(e: Expression, start: Elementary) {
    (e.Operation? && start == Opcode_(e.op)) || (e.Call? && start == Name(e.function_))
  }

  /** The tokens of a call after its name. */
  lemma {:induction false} CallBack(d: Dialect, e: Expression, start: Elementary, rest: seq<Token>, n: nat)
    requires DialectOk(d) && IsCall(d, e, n) && Starts(e, start)
    ensures |ExpressionTokens(d, e)| > 1
    ensures ParseCall(d, start, (ExpressionTokens(d, e) + rest)[1..], n) == Parsed(e, rest)
    decreases e, 1
  {
    hide IsName, KindOf, InfoOf, IsStackShuffle, AreExpressions, ArgumentTokens, ParseExact, ParseArguments;
    var ts := (ExpressionTokens(d, e) + rest)[1..];
    var inner := ArgumentTokens(d, e.args) + ([RParen] + rest);
    assert ts[1..] == inner;
    assert ([RParen] + rest)[1..] == rest;
    if e.Operation? {
      ExactBack(d, e.args, [RParen] + rest, n - 1);
    } else {
      ArgumentsBack(d, e.args, [RParen] + rest, n - 1);
    }
  }

  lemma {:induction false} ExactBack(d: Dialect, es: seq<Expression>, rest: seq<Token>, n: nat)
    requires DialectOk(d) && AreExpressions(d, es, n) && StartsWith(rest, RParen)
    ensures ParseExact(d, ArgumentTokens(d, es) + rest, |es|, n) == Parsed(es, rest)
    decreases es, 3
  {
    hide IsExpression, ExpressionTokens, ParseExpression;
    if es == [] {
      assert [] + rest == rest;
    } else {
      hide ArgumentTokens;
      FirstArgument(d, es, rest, n);
      if |es| > 1 { ExactBack(d, es[1..], rest, n); }
      assert [es[0]] + es[1..] == es && (|es| == 1 ==> [es[0]] == es);
      assert es[1..] == [] <==> |es| == 1;
    }
  }

  /** The first operand of a list, and what follows it. */
  lemma {:induction false} FirstArgument(d: Dialect, es: seq<Expression>, rest: seq<Token>, n: nat)
    requires DialectOk(d) && es != [] && AreExpressions(d, es, n) && StartsWith(rest, RParen)
    ensures var ts := ArgumentTokens(d, es) + rest;
            var next := if |es| == 1 then rest else [Comma] + (ArgumentTokens(d, es[1..]) + rest);
            ParseExpression(d, ts, n) == Parsed(es[0], next) && !StartsWith(ts, RParen) && (|es| > 1 ==> next[1..] == ArgumentTokens(d, es[1..]) + rest)
    decreases es, 2
  {
    hide IsExpression, ExpressionTokens, ParseExpression;
    var ts := ArgumentTokens(d, es) + rest;
    var next := if |es| == 1 then rest else [Comma] + (ArgumentTokens(d, es[1..]) + rest);
    assert ts == ExpressionTokens(d, es[0]) + next;
    ExpressionBack(d, es[0], next, n);
    ExpressionStarts(d, es[0], next);
  }

  lemma {:induction false} ArgumentsBack(d: Dialect, es: seq<Expression>, rest: seq<Token>, n: nat)
    requires DialectOk(d) && AreExpressions(d, es, n) && StartsWith(rest, RParen)
    ensures ParseArguments(d, ArgumentTokens(d, es) + rest, n) == Parsed(es, rest)
    decreases es, 3
  {
    hide IsExpression, ExpressionTokens, ParseExpression;
    if es == [] {
      assert [] + rest == rest;
    } else {
      hide ArgumentTokens;
      FirstArgument(d, es, rest, n);
      if |es| > 1 { ArgumentsBack(d, es[1..], rest, n); }
      assert [es[0]] + es[1..] == es && (|es| == 1 ==> [es[0]] == es);
      assert es[1..] == [] <==> |es| == 1;
    }
  }

  // ----- names -----

  lemma {:induction false} NamesBack(d: Dialect, names: seq<string>, rest: seq<Token>, n: nat)
    requires n >= 1 && names != [] && AreVariables(d, names) && !StartsWith(rest, Comma)
    ensures ParseNames(d, NameTokens(names) + rest, n) == Parsed(names, rest)
    decreases |names|
  {
    hide IsVariable, IsName, NameTokens;
    var ts := NameTokens(names) + rest;
    FirstName(names, rest);
    assert ParseTypedName(d, ts, n) == Parsed(names[0], ts[1..]);
    if |names| == 1 {
      assert [names[0]] == names;
    } else {
      var next := NameTokens(names[1..]) + rest;
      assert ts[1..][0] == Comma && ts[1..][1..] == next;
      NamesBack(d, names[1..], rest, n);
      assert [names[0]] + names[1..] == names;
    }
  }

  lemma {:induction false} FirstName(names: seq<string>, rest: seq<Token>)
    requires names != []
    ensures var ts := NameTokens(names) + rest;
            && ts != [] && ts[0] == Word(names[0])
            && ts[1..] == if |names| == 1 then rest else [Comma] + (NameTokens(names[1..]) + rest)
  {
  }

  lemma {:induction false} ParametersBack(d: Dialect, names: seq<string>, rest: seq<Token>, n: nat)
    requires (names != [] ==> n >= 1) && AreVariables(d, names) && StartsWith(rest, RParen)
    ensures ParseParameters(d, NameTokens(names) + rest, n) == Parsed(names, rest)
    decreases |names|
  {
    hide IsVariable, IsName;
    if names == [] {
      assert [] + rest == rest;
    } else {
      hide NameTokens;
      var ts := NameTokens(names) + rest;
      FirstName(names, rest);
      assert ParseTypedName(d, ts, n) == Parsed(names[0], ts[1..]);
      if |names| == 1 {
        assert [names[0]] == names;
      } else {
        var next := NameTokens(names[1..]) + rest;
        assert ts[1..][0] == Comma && ts[1..][1..] == next;
        ParametersBack(d, names[1..], rest, n);
        assert [names[0]] + names[1..] == names;
      }
    }
  }

  lemma {:induction false} ReturnsBack(d: Dialect, names: seq<string>, rest: seq<Token>, n: nat)
    requires n >= 1 && names != [] && AreVariables(d, names) && StartsWith(rest, LBrace)
    ensures ParseReturns(d, NameTokens(names) + rest, n) == Parsed(names, rest)
    decreases |names|
  {
    hide IsVariable, IsName, NameTokens;
    FirstName(names, rest);
    if |names| > 1 {
      var next := [Comma] + (NameTokens(names[1..]) + rest);
      assert next[1..] == NameTokens(names[1..]) + rest;
      ReturnsBack(d, names[1..], rest, n);
    }
    assert [names[0]] + names[1..] == names && (|names| == 1 ==> [names[0]] == names);
  }

  lemma {:induction false} TargetsBack(d: Dialect, names: seq<string>, rest: seq<Token>, n: nat)
    requires n >= 1 && names != [] && AreVariables(d, names) && !StartsWith(rest, Comma)
    ensures NameTokens(names) != []
    ensures ParseTargets(d, Name(names[0]), (NameTokens(names) + rest)[1..], n) == Parsed(names, rest)
    decreases |names|
  {
    hide IsVariable, IsName, NameTokens, ParseElementary;
    FirstName(names, rest);
    var ts := (NameTokens(names) + rest)[1..];
    NotBuiltin(d, names[0]);
    if |names| == 1 {
      assert [names[0]] == names;
    } else {
      var next := NameTokens(names[1..]) + rest;
      assert ts[0] == Comma && ts[1..] == next;
      FirstName(names[1..], rest);
      VariableBack(d, next, n);
      TargetsBack(d, names[1..], rest, n);
      assert [names[0]] + names[1..] == names;
    }
  }

  lemma {:induction false} NotBuiltin(d: Dialect, w: string)
    requires IsVariable(d, w)
    ensures w !in d.builtins
  {
  }

  lemma {:induction false} VariableBack(d: Dialect, ts: seq<Token>, n: nat)
    requires n >= 1 && ts != [] && ts[0].Word? && IsVariable(d, ts[0].name)
    ensures ParseElementary(d, ts, n) == Parsed(Name(ts[0].name), ts[1..])
  {
    hide KindOf;
  }

  // ----- statements -----

  /** What can follow a statement. */
  predicate Follows(ts: seq<Token>) {
    ts == [] || (ts[0] != LParen && ts[0] != Comma && ts[0] != Assign && ts[0] != Word("case") && ts[0] != Word("default"))
  }

  lemma {:induction false} StatementStarts(d: Dialect, s: Statement, rest: seq<Token>, n: nat)
    requires DialectOk(d) && IsStatement(d, s, n)
    ensures var ts := StatementTokens(d, s) + rest; ts != [] && Follows(ts) && !StartsWith(ts, RBrace)
  {
    hide IsExpression, AreExpressions, IsBlock, AreCases, IsName, BlockTokens, CaseTokens, ArgumentTokens, InfoOf;
    hide IsStackShuffle;
    if s.Evaluate? && s.expression.Operation? { NameBack(d, s.expression.op); }
    if s.Block? { BlockStarts(d, s.body, rest); }
    if s.Assignment? { FirstName(s.names, [Assign] + ExpressionTokens(d, s.value) + rest); }
  }

  lemma {:induction false} BlockStarts(d: Dialect, ss: seq<Statement>, rest: seq<Token>)
    ensures BlockTokens(d, ss) != [] && (BlockTokens(d, ss) + rest)[0] == LBrace
    ensures (BlockTokens(d, ss) + rest)[1..] == StatementsTokens(d, ss) + ([RBrace] + rest)
  {
  }

  lemma {:induction false} BlockBack(d: Dialect, ss: seq<Statement>, rest: seq<Token>, n: nat)
    requires DialectOk(d) && IsBlock(d, ss, n)
    ensures ParseBlock(d, BlockTokens(d, ss) + rest, n) == Parsed(ss, rest)
    decreases ss, 3
  {
    hide AreStatements, StatementsTokens, ParseStatements, BlockTokens;
    BlockStarts(d, ss, rest);
    StatementsBack(d, ss, [RBrace] + rest, n - 1);
    assert ([RBrace] + rest)[1..] == rest;
  }

  lemma {:induction false} StatementsBack(d: Dialect, ss: seq<Statement>, rest: seq<Token>, n: nat)
    requires DialectOk(d) && AreStatements(d, ss, n) && StartsWith(rest, RBrace)
    ensures ParseStatements(d, StatementsTokens(d, ss) + rest, n) == Parsed(ss, rest)
    decreases ss, 2
  {
    hide IsStatement, StatementTokens, ParseStatement, DialectOk;
    if ss == [] {
      assert [] + rest == rest;
    } else {
      var next := StatementsTokens(d, ss[1..]) + rest;
      assert StatementsTokens(d, ss) + rest == StatementTokens(d, ss[0]) + next;
      StatementStarts(d, ss[0], next, n);
      NextFollows(d, ss[1..], rest, n);
      StatementBack(d, ss[0], next, n);
      StatementsBack(d, ss[1..], rest, n);
      assert [ss[0]] + ss[1..] == ss;
    }
  }

  lemma {:induction false} NextFollows(d: Dialect, ss: seq<Statement>, rest: seq<Token>, n: nat)
    requires DialectOk(d) && AreStatements(d, ss, n) && StartsWith(rest, RBrace)
    ensures Follows(StatementsTokens(d, ss) + rest)
  {
    hide IsStatement, StatementTokens, DialectOk;
    if ss == [] {
      assert [] + rest == rest;
    } else {
      StatementStarts(d, ss[0], StatementsTokens(d, ss[1..]) + rest, n);
      assert StatementsTokens(d, ss) + rest == StatementTokens(d, ss[0]) + (StatementsTokens(d, ss[1..]) + rest);
    }
  }

  lemma {:induction false} StatementBack(d: Dialect, s: Statement, rest: seq<Token>, n: nat)
    requires DialectOk(d) && IsStatement(d, s, n) && Follows(rest)
    ensures ParseStatement(d, StatementTokens(d, s) + rest, n) == Parsed(s, rest)
    decreases s, 1
  {
    hide *;
    match s
    case Evaluate(_) => EvaluateBack(d, s, rest, n);
    case Assignment(_, _) => AssignmentBack(d, s, rest, n);
    case Declaration(_, _) => DeclarationBack(d, s, rest, n);
    case Definition(_, _, _, _) => DefinitionBack(d, s, rest, n);
    case Conditional(_, _) => ConditionalBack(d, s, rest, n);
    case Selection(_, _) => SelectionBack(d, s, rest, n);
    case Loop(_, _, _, _) => LoopBack(d, s, rest, n);
    case Leave => LeaveBack(d, s, rest, n);
    case Next => LeaveBack(d, s, rest, n);
    case Block(_) => InnerBlockBack(d, s, rest, n);
  }

  lemma {:induction false} LeaveBack(d: Dialect, s: Statement, rest: seq<Token>, n: nat)
    requires (s.Leave? || s.Next?) && IsStatement(d, s, n)
    ensures ParseStatement(d, StatementTokens(d, s) + rest, n) == Parsed(s, rest)
  {
    var ts := StatementTokens(d, s) + rest;
    assert ts[1..] == rest;
  }

  lemma {:induction false} InnerBlockBack(d: Dialect, s: Statement, rest: seq<Token>, n: nat)
    requires s.Block? && DialectOk(d) && IsStatement(d, s, n)
    ensures ParseStatement(d, StatementTokens(d, s) + rest, n) == Parsed(s, rest)
    decreases s, 0
  {
    hide DialectOk, IsBlock, BlockTokens, ParseBlock, KindOf;
    BlockStarts(d, s.body, rest);
    BlockBack(d, s.body, rest, n - 1);
  }

  /** A plain word starts no keyword statement. */
  lemma {:induction false} PlainStarts(d: Dialect, ts: seq<Token>, n: nat)
    requires n >= 1 && IsKind(d, ts, Plain)
    ensures ParseStatement(d, ts, n) == ParseSimple(d, ts, n - 1)
  {
    hide KindOf, ParseSimple;
  }

  lemma {:induction false} EvaluateBack(d: Dialect, s: Statement, rest: seq<Token>, n: nat)
    requires s.Evaluate? && DialectOk(d) && IsStatement(d, s, n)
    ensures ParseStatement(d, StatementTokens(d, s) + rest, n) == Parsed(s, rest)
    decreases s, 0
  {
    hide IsName, KindOf, InfoOf, IsStackShuffle, AreExpressions, ArgumentTokens, ParseCall, ParseStatement;
    var e := s.expression;
    var ts := ExpressionTokens(d, e) + rest;
    if e.Operation? { NameBack(d, e.op); }
    CallBack(d, e, if e.Operation? then Opcode_(e.op) else Name(e.function_), rest, n - 1);
    assert ts[1] == LParen && ts[1..][0] == LParen;
    PlainStarts(d, ts, n);
  }

  lemma {:induction false} AssignmentBack(d: Dialect, s: Statement, rest: seq<Token>, n: nat)
    requires s.Assignment? && DialectOk(d) && IsStatement(d, s, n) && Follows(rest)
    ensures ParseStatement(d, StatementTokens(d, s) + rest, n) == Parsed(s, rest)
    decreases s, 0
  {
    hide DialectOk, IsName, KindOf, IsExpression, ExpressionTokens, ParseExpression, ParseCall, ParseTargets;
    hide ParseStatement, NameTokens;
    var value := ExpressionTokens(d, s.value) + rest;
    var next := [Assign] + value;
    var ts := NameTokens(s.names) + next;
    assert ts == StatementTokens(d, s) + rest;
    FirstName(s.names, next);
    assert next[1..] == value;
    PlainStarts(d, ts, n);
    TargetsBack(d, s.names, next, n - 1);
    ExpressionBack(d, s.value, rest, n - 1);
  }

  lemma {:induction false} DeclarationBack(d: Dialect, s: Statement, rest: seq<Token>, n: nat)
    requires s.Declaration? && DialectOk(d) && IsStatement(d, s, n) && Follows(rest)
    ensures ParseStatement(d, StatementTokens(d, s) + rest, n) == Parsed(s, rest)
    decreases s, 0
  {
    hide DialectOk, IsName, IsExpression, ExpressionTokens, ParseExpression, ParseNames, NameTokens;
    var ts := StatementTokens(d, s) + rest;
    if s.init.None? {
      assert ts[1..] == NameTokens(s.names) + rest;
      NamesBack(d, s.names, rest, n - 2);
    } else {
      var value := ExpressionTokens(d, s.init.value) + rest;
      assert ts[1..] == NameTokens(s.names) + ([Assign] + value);
      assert ([Assign] + value)[1..] == value;
      NamesBack(d, s.names, [Assign] + value, n - 2);
      ExpressionBack(d, s.init.value, rest, n - 2);
    }
  }

  lemma {:induction false} ResultsBack(d: Dialect, names: seq<string>, rest: seq<Token>, n: nat)
    requires (names != [] ==> n >= 1) && AreVariables(d, names) && StartsWith(rest, LBrace)
    ensures ParseResults(d, (if names == [] then [] else [Minus, Greater] + NameTokens(names)) + rest, n) == Parsed(names, rest)
  {
    hide IsVariable, IsName, NameTokens, ParseReturns;
    if names == [] {
      assert [] + rest == rest;
    } else {
      var ts := [Minus, Greater] + NameTokens(names) + rest;
      assert ts[1..][0] == Greater && ts[2..] == NameTokens(names) + rest;
      ReturnsBack(d, names, rest, n);
    }
  }

  lemma {:induction false} DefinitionBack(d: Dialect, s: Statement, rest: seq<Token>, n: nat)
    requires s.Definition? && DialectOk(d) && IsStatement(d, s, n)
    ensures ParseStatement(d, StatementTokens(d, s) + rest, n) == Parsed(s, rest)
    decreases s, 0
  {
    hide DialectOk, IsName, IsVariable, IsBlock, BlockTokens, ParseBlock, ParseParameters, ParseResults, NameTokens;
    hide ParseDefinition, AreVariables;
    var ts := StatementTokens(d, s) + rest;
    var block := BlockTokens(d, s.body) + rest;
    var results := (if s.returns_ == [] then [] else [Minus, Greater] + NameTokens(s.returns_)) + block;
    var params := NameTokens(s.parameters) + ([RParen] + results);
    assert ts == [Word("function"), Word(s.name), LParen] + params;
    assert ([RParen] + results)[1..] == results;
    BlockStarts(d, s.body, rest);
    ParametersBack(d, s.parameters, [RParen] + results, n - 2);
    ResultsBack(d, s.returns_, block, n - 2);
    BlockBack(d, s.body, rest, n - 2);
    PartsBack(d, s, params, results, block, rest, n - 1);
  }

  lemma {:induction false} PartsBack(d: Dialect, s: Statement, params: seq<Token>, results: seq<Token>,
      block: seq<Token>, rest: seq<Token>, n: nat)
    requires s.Definition? && n >= 1 && IsVariable(d, s.name)
    requires ParseParameters(d, params, n - 1) == Parsed(s.parameters, [RParen] + results)
    requires ParseResults(d, results, n - 1) == Parsed(s.returns_, block)
    requires ParseBlock(d, block, n - 1) == Parsed(s.body, rest)
    ensures ParseDefinition(d, [Word("function"), Word(s.name), LParen] + params, n) == Parsed(s, rest)
  {
    hide IsVariable, ParseBlock, ParseParameters, ParseResults;
    var ts := [Word("function"), Word(s.name), LParen] + params;
    assert ts[1..][0] == Word(s.name) && ts[1..][1..][0] == LParen && ts[1..][1..][1..] == params;
    assert ([RParen] + results)[1..] == results;
  }

  lemma {:induction false} ConditionalBack(d: Dialect, s: Statement, rest: seq<Token>, n: nat)
    requires s.Conditional? && DialectOk(d) && IsStatement(d, s, n)
    ensures ParseStatement(d, StatementTokens(d, s) + rest, n) == Parsed(s, rest)
    decreases s, 0
  {
    hide DialectOk, IsExpression, IsBlock, BlockTokens, ExpressionTokens, ParseBlock, ParseExpression;
    var ts := StatementTokens(d, s) + rest;
    var block := BlockTokens(d, s.body) + rest;
    assert ts[1..] == ExpressionTokens(d, s.condition) + block;
    BlockStarts(d, s.body, rest);
    ExpressionBack(d, s.condition, block, n - 1);
    BlockBack(d, s.body, rest, n - 1);
  }

  lemma {:induction false} LoopBack(d: Dialect, s: Statement, rest: seq<Token>, n: nat)
    requires s.Loop? && DialectOk(d) && IsStatement(d, s, n)
    ensures ParseStatement(d, StatementTokens(d, s) + rest, n) == Parsed(s, rest)
    decreases s, 0
  {
    hide DialectOk, IsExpression, IsBlock, BlockTokens, ExpressionTokens, ParseBlock, ParseExpression;
    var ts := StatementTokens(d, s) + rest;
    var body := BlockTokens(d, s.body) + rest;
    var post := BlockTokens(d, s.post) + body;
    var condition := ExpressionTokens(d, s.condition) + post;
    assert ts[1..] == BlockTokens(d, s.pre) + condition;
    BlockStarts(d, s.post, body);
    BlockBack(d, s.pre, condition, n - 2);
    ExpressionBack(d, s.condition, post, n - 2);
    BlockBack(d, s.post, body, n - 2);
    BlockBack(d, s.body, rest, n - 2);
  }

  // ----- switch -----

  lemma {:induction false} SelectionBack(d: Dialect, s: Statement, rest: seq<Token>, n: nat)
    requires s.Selection? && DialectOk(d) && IsStatement(d, s, n) && Follows(rest)
    ensures ParseStatement(d, StatementTokens(d, s) + rest, n) == Parsed(s, rest)
    decreases s, 0
  {
    hide DialectOk, IsExpression, AreCases, CaseTokens, ExpressionTokens, ParseCases, ParseExpression;
    var ts := StatementTokens(d, s) + rest;
    var cases := CaseTokens(d, s.cases) + rest;
    assert ts[1..] == ExpressionTokens(d, s.expression) + cases;
    CasesStart(d, s.cases, rest);
    ExpressionBack(d, s.expression, cases, n - 1);
    CasesBack(d, s.cases, rest, n - 1);
  }

  lemma {:induction false} CaseKinds(d: Dialect, ts: seq<Token>)
    requires ts != []
    ensures IsKind(d, ts, Case) <==> ts[0] == Word("case")
    ensures IsKind(d, ts, Default) <==> ts[0] == Word("default")
  {
  }

  lemma {:induction false} CasesStart(d: Dialect, cases: seq<SwitchCase>, rest: seq<Token>)
    requires cases != []
    ensures var ts := CaseTokens(d, cases) + rest;
            ts != [] && ts[0] == if cases[0].label_.None? then Word("default") else Word("case")
  {
    hide BlockTokens, ExpressionTokens;
  }

  lemma {:induction false} CasesBack(d: Dialect, cases: seq<SwitchCase>, rest: seq<Token>, n: nat)
    requires DialectOk(d) && AreCases(d, cases, n) && Follows(rest)
    ensures ParseCases(d, CaseTokens(d, cases) + rest, n) == Parsed(cases, rest)
    decreases cases, 2
  {
    hide DialectOk, IsCase, OneCaseTokens, ParseCase;
    if cases == [] {
      assert [] + rest == rest;
      if rest != [] { CaseKinds(d, rest); }
    } else {
      var next := CaseTokens(d, cases[1..]) + rest;
      assert CaseTokens(d, cases) + rest == OneCaseTokens(d, cases[0]) + next;
      CasesStart(d, cases, rest);
      CaseKinds(d, CaseTokens(d, cases) + rest);
      hide KindOf, CaseTokens;
      CaseBack(d, cases[0], next, n);
      CasesBack(d, cases[1..], rest, n);
      assert [cases[0]] + cases[1..] == cases;
      if cases[0].label_.None? { assert [cases[0]] == cases && next == rest; }
    }
  }

  lemma {:induction false} CaseBack(d: Dialect, c: SwitchCase, rest: seq<Token>, n: nat)
    requires DialectOk(d) && IsCase(d, c, n)
    ensures ParseCase(d, OneCaseTokens(d, c) + rest, n) == Parsed(c, rest)
    decreases c, 1
  {
    hide DialectOk, IsBlock, BlockTokens, ParseBlock, IsNumber, AreBytes;
    var ts := OneCaseTokens(d, c) + rest;
    var block := BlockTokens(d, c.body) + rest;
    BlockBack(d, c.body, rest, n - 1);
    if c.label_.None? {
      assert ts[1..] == block;
    } else {
      assert ts[1..] == ExpressionTokens(d, c.label_.value) + block;
      assert ts[1..][1..] == block;
    }
  }
}
