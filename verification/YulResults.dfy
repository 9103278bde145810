/** Whatever is parsed can be printed, and comes back. */
module YulResults {
  import opened Instructions
  import opened Items
  import Machine
  import Utf8
  import opened Yul
  import opened YulScanner
  import opened YulPrinter
  import opened YulSpelling
  import opened YulParser
  import opened YulRoundTrip

  // ----- what the scanner returns -----

  lemma {:induction false} EscapedBytes(s: string, i: nat)
    requires EscapeAt(s, i).Escaped? && AreBytes(s)
    ensures AreBytes(EscapeAt(s, i).chars)
  {
    hide Utf8.EncodeCodePoint;
  }

  lemma {:induction false} TextBytes(s: string, i: nat, quote: char)
    requires TextAt(s, i, quote).Scanned? && AreBytes(s)
    ensures AreBytes(TextAt(s, i, quote).value)
    decreases |s| - i
  {
    hide EscapeAt, IsLineBreak;
    if s[i] == quote {
    } else if s[i] == '\\' {
      EscapedBytes(s, i + 1);
      TextBytes(s, EscapeAt(s, i + 1).next, quote);
    } else {
      TextBytes(s, i + 1, quote);
    }
  }

  lemma {:induction false} TokenAtOk(s: string)
    requires |s| > 0 && !IsWhite(s[0]) && AreBytes(s) && TokenAt(s).Found?
    ensures TokenOk(TokenAt(s).token)
  {
    hide TextAt, WordEnd, NumberAt, AreBytes;
    var c := s[0];
    if c == '"' || c == '\'' {
      TextBytes(s, 1, c);
    } else if IsIdentifierStart(c) {
      WordOk(s);
    } else if IsDigit(c) {
      NumberOk(s);
    }
  }

  lemma {:induction false} WordOk(s: string)
    requires |s| > 0 && IsIdentifierStart(s[0])
    ensures IsWord(s[..WordEnd(s, 0)])
  {
    var n := WordEnd(s, 0);
    assert n > 0;
    assert s[..n][0] == s[0];
  }

  lemma {:induction false} NumberOk(s: string)
    requires |s| > 0 && IsDigit(s[0]) && NumberAt(s).Found?
    ensures NumberAt(s).token.Number? && IsNumber(NumberAt(s).token.digits)
  {
    var n := NumberAt(s).length;
    var t := s[..n];
    if |s| >= 2 && s[0] == '0' && s[1] == 'x' {
      assert t[..2] == "0x";
      assert IsHexNumber(t);
    } else {
      assert t[0] == s[0];
      assert IsDecimal(t);
    }
  }

  lemma {:induction false} LexOk(s: string)
    requires AreBytes(s) && Lex(s).Some?
    ensures TokensOk(Lex(s).value)
    decreases |s|
  {
    hide TokenAt, TokenOk;
    if s != "" {
      if IsWhite(s[0]) {
        LexOk(s[1..]);
      } else {
        TokenAtOk(s);
        LexOk(s[TokenAt(s).length..]);
      }
    }
  }

  // ----- what the parser returns -----

  lemma {:induction false} TailOk(ts: seq<Token>, k: nat)
    requires TokensOk(ts) && k <= |ts|
    ensures TokensOk(ts[k..])
  {
    hide TokenOk;
  }

  predicate ElementaryOk(d: Dialect, e: Elementary) {
    match e
    case Opcode_(op) => op in d.nameOf
    case Name(w) => CanBeName(d, w)
    case Constant(isText, v) => if isText then AreBytes(v) else IsNumber(v)
  }

  lemma {:induction false} ElementaryReturned(d: Dialect, ts: seq<Token>, n: nat)
    requires DialectOk(d) && TokensOk(ts) && ParseElementary(d, ts, n).Parsed?
    ensures var r := ParseElementary(d, ts, n); n >= 1 && ElementaryOk(d, r.value) && TokensOk(r.rest)
  {
    hide KindOf, IsName, IsNumber, AreBytes;
    assert TokenOk(ts[0]);
    TailOk(ts, 1);
  }

  lemma {:induction false} ExpressionReturned(d: Dialect, ts: seq<Token>, n: nat)
    requires DialectOk(d) && TokensOk(ts) && ParseExpression(d, ts, n).Parsed?
    ensures var r := ParseExpression(d, ts, n); IsExpression(d, r.value, n) && TokensOk(r.rest)
    decreases n, 0, 0
  {
    hide DialectOk, TokensOk, KindOf, IsName, IsNumber, AreBytes, InfoOf, IsStackShuffle, ParseElementary, ParseCall;
    hide IsCall;
    ElementaryReturned(d, ts, n - 1);
    var start := ParseElementary(d, ts, n - 1);
    if StartsWith(start.rest, LParen) { CallReturned(d, start.value, start.rest, n - 1); }
  }

  lemma {:induction false} CallReturned(d: Dialect, start: Elementary, ts: seq<Token>, n: nat)
    requires DialectOk(d) && TokensOk(ts) && ElementaryOk(d, start) && ParseCall(d, start, ts, n).Parsed?
    ensures var r := ParseCall(d, start, ts, n); IsCall(d, r.value, n) && Starts(r.value, start) && TokensOk(r.rest)
    decreases n, 0, 0
  {
    hide DialectOk, TokensOk, CanBeName, IsNumber, AreBytes, InfoOf, IsStackShuffle, ParseExact, ParseArguments;
    hide AreExpressions;
    TailOk(ts, 1);
    if start.Opcode_? {
      ExactReturned(d, ts[1..], InfoOf(start.op).args, n - 1);
      TailOk(ParseExact(d, ts[1..], InfoOf(start.op).args, n - 1).rest, 1);
    } else {
      ArgumentsReturned(d, ts[1..], n - 1);
      TailOk(ParseArguments(d, ts[1..], n - 1).rest, 1);
    }
  }

  lemma {:induction false} ExpectOk<T>(p: Parsed<T>, t: Token)
    requires p.Parsed? && TokensOk(p.rest)
    ensures Expect(p, t).Parsed? ==> TokensOk(Expect(p, t).rest)
  {
    hide TokenOk;
  }

  lemma {:induction false} ExactReturned(d: Dialect, ts: seq<Token>, k: nat, n: nat)
    requires DialectOk(d) && TokensOk(ts) && ParseExact(d, ts, k, n).Parsed?
    ensures var r := ParseExact(d, ts, k, n); AreExpressions(d, r.value, n) && TokensOk(r.rest)
    decreases n, 1, k
  {
    hide DialectOk, TokensOk, IsExpression, ParseExpression;
    if k > 0 {
      ExpressionReturned(d, ts, n);
      var first := ParseExpression(d, ts, n);
      ExpectOk(first, Comma);
      var next := if k == 1 then first else Expect(first, Comma);
      ExactReturned(d, next.rest, k - 1, n);
      ConsExpressions(d, next.value, ParseExact(d, next.rest, k - 1, n).value, n);
    }
  }

  lemma {:induction false} ConsExpressions(d: Dialect, e: Expression, es: seq<Expression>, n: nat)
    requires IsExpression(d, e, n) && AreExpressions(d, es, n)
    ensures AreExpressions(d, [e] + es, n) && AreExpressions(d, [e], n)
  {
    hide IsExpression;
    assert ([e] + es)[1..] == es && [e][1..] == [];
  }

  lemma {:induction false} ArgumentsReturned(d: Dialect, ts: seq<Token>, n: nat)
    requires DialectOk(d) && TokensOk(ts) && ParseArguments(d, ts, n).Parsed?
    ensures var r := ParseArguments(d, ts, n); AreExpressions(d, r.value, n) && TokensOk(r.rest)
    decreases n, 1, |ts|
  {
    hide DialectOk, TokensOk, IsExpression, ParseExpression;
    if !StartsWith(ts, RParen) {
      ExpressionReturned(d, ts, n);
      var first := ParseExpression(d, ts, n);
      ConsExpressions(d, first.value, [], n);
      if !StartsWith(first.rest, RParen) {
        ExpectOk(first, Comma);
        var next := Expect(first, Comma);
        ArgumentsReturned(d, next.rest, n);
        ConsExpressions(d, next.value, ParseArguments(d, next.rest, n).value, n);
      }
    }
  }

  // ----- names -----

  lemma {:induction false} NameReturned(d: Dialect, ts: seq<Token>)
    requires TokensOk(ts) && ExpectName(d, ts).Parsed?
    ensures var r := ExpectName(d, ts); IsVariable(d, r.value) && IsName(r.value) && TokensOk(r.rest)
  {
    hide IsVariable, IsName, IsNumber, AreBytes;
    assert TokenOk(ts[0]);
    TailOk(ts, 1);
  }

  lemma {:induction false} NamesReturned(d: Dialect, ts: seq<Token>, n: nat)
    requires TokensOk(ts) && ParseNames(d, ts, n).Parsed?
    ensures var r := ParseNames(d, ts, n); n >= 1 && AreVariables(d, r.value) && TokensOk(r.rest)
    decreases |ts|
  {
    hide TokensOk, IsVariable, IsName, ExpectName;
    NameReturned(d, ts);
    var first := ParseTypedName(d, ts, n);
    if StartsWith(first.rest, Comma) {
      TailOk(first.rest, 1);
      NamesReturned(d, first.rest[1..], n);
    }
  }

  lemma {:induction false} ParametersReturned(d: Dialect, ts: seq<Token>, n: nat)
    requires TokensOk(ts) && ParseParameters(d, ts, n).Parsed?
    ensures var r := ParseParameters(d, ts, n);
            (r.value != [] ==> n >= 1) && AreVariables(d, r.value) && TokensOk(r.rest)
    decreases |ts|
  {
    hide TokensOk, IsVariable, IsName, ExpectName;
    if !StartsWith(ts, RParen) {
      NameReturned(d, ts);
      var first := ParseTypedName(d, ts, n);
      if !StartsWith(first.rest, RParen) {
        ExpectOk(first, Comma);
        ParametersReturned(d, Expect(first, Comma).rest, n);
      }
    }
  }

  lemma {:induction false} ReturnsReturned(d: Dialect, ts: seq<Token>, n: nat)
    requires TokensOk(ts) && ParseReturns(d, ts, n).Parsed?
    ensures var r := ParseReturns(d, ts, n); n >= 1 && AreVariables(d, r.value) && TokensOk(r.rest)
    decreases |ts|
  {
    hide TokensOk, IsVariable, IsName, ExpectName;
    NameReturned(d, ts);
    var first := ParseTypedName(d, ts, n);
    if !StartsWith(first.rest, LBrace) {
      ExpectOk(first, Comma);
      ReturnsReturned(d, Expect(first, Comma).rest, n);
    }
  }

  lemma {:induction false} TargetsReturned(d: Dialect, start: Elementary, ts: seq<Token>, n: nat)
    requires DialectOk(d) && ElementaryOk(d, start) && TokensOk(ts) && ParseTargets(d, start, ts, n).Parsed?
    ensures var r := ParseTargets(d, start, ts, n); AreVariables(d, r.value) && TokensOk(r.rest)
    decreases |ts|
  {
    hide DialectOk, TokensOk, KindOf, IsName, IsNumber, AreBytes, ParseElementary;
    if StartsWith(ts, Comma) {
      TailOk(ts, 1);
      ElementaryReturned(d, ts[1..], n);
      var next := ParseElementary(d, ts[1..], n);
      TargetsReturned(d, next.value, next.rest, n);
    }
  }

  // ----- statements -----

  lemma {:induction false} BlockReturned(d: Dialect, ts: seq<Token>, n: nat)
    requires DialectOk(d) && TokensOk(ts) && ParseBlock(d, ts, n).Parsed?
    ensures var r := ParseBlock(d, ts, n); IsBlock(d, r.value, n) && TokensOk(r.rest)
    decreases n, 0, 0
  {
    hide DialectOk, TokensOk, AreStatements, ParseStatements;
    TailOk(ts, 1);
    StatementsReturned(d, ts[1..], n - 1);
    ExpectOk(ParseStatements(d, ts[1..], n - 1), RBrace);
  }

  lemma {:induction false} StatementsReturned(d: Dialect, ts: seq<Token>, n: nat)
    requires DialectOk(d) && TokensOk(ts) && ParseStatements(d, ts, n).Parsed?
    ensures var r := ParseStatements(d, ts, n); AreStatements(d, r.value, n) && TokensOk(r.rest)
    decreases n, 1, |ts|
  {
    hide DialectOk, TokensOk, IsStatement, ParseStatement;
    if !StartsWith(ts, RBrace) {
      StatementReturned(d, ts, n);
      var first := ParseStatement(d, ts, n);
      StatementsReturned(d, first.rest, n);
      var others := ParseStatements(d, first.rest, n).value;
      assert ([first.value] + others)[1..] == others;
    }
  }

  lemma {:induction false} StatementReturned(d: Dialect, ts: seq<Token>, n: nat)
    requires DialectOk(d) && TokensOk(ts) && ParseStatement(d, ts, n).Parsed?
    ensures var r := ParseStatement(d, ts, n); IsStatement(d, r.value, n) && TokensOk(r.rest)
    decreases n, 0, 1
  {
    hide DialectOk, TokensOk, IsKind, ParseDeclaration, ParseDefinition, ParseConditional, ParseSelection, ParseLoop;
    hide ParseBlock, ParseSimple, IsBlock, IsExpression, IsCall, AreCases, AreVariables;
    TailOk(ts, 1);
    if IsKind(d, ts, Let) {
      DeclarationReturned(d, ts, n);
    } else if IsKind(d, ts, Function) {
      DefinitionReturned(d, ts, n);
    } else if IsKind(d, ts, If) {
      ConditionalReturned(d, ts[1..], n);
    } else if IsKind(d, ts, Switch) {
      SelectionReturned(d, ts[1..], n);
    } else if IsKind(d, ts, For) {
      LoopReturned(d, ts, n);
    } else if IsKind(d, ts, Break) || IsKind(d, ts, Continue) {
    } else if ts[0] == LBrace {
      BlockReturned(d, ts, n - 1);
    } else {
      SimpleReturned(d, ts, n);
    }
  }

  lemma {:induction false} SimpleReturned(d: Dialect, ts: seq<Token>, n: nat)
    requires n >= 1 && DialectOk(d) && TokensOk(ts) && ParseSimple(d, ts, n - 1).Parsed?
    ensures var r := ParseSimple(d, ts, n - 1); IsStatement(d, r.value, n) && TokensOk(r.rest)
  {
    hide DialectOk, TokensOk, ElementaryOk, ParseElementary, ParseCall, ParseTargets, ParseExpression, IsCall;
    hide IsExpression, AreVariables;
    ElementaryReturned(d, ts, n - 1);
    var start := ParseElementary(d, ts, n - 1);
    if StartsWith(start.rest, LParen) {
      CallReturned(d, start.value, start.rest, n - 1);
    } else {
      TargetsReturned(d, start.value, start.rest, n - 1);
      ExpectOk(ParseTargets(d, start.value, start.rest, n - 1), Assign);
      ExpressionReturned(d, Expect(ParseTargets(d, start.value, start.rest, n - 1), Assign).rest, n - 1);
    }
  }

  lemma {:induction false} DeclarationReturned(d: Dialect, ts: seq<Token>, n: nat)
    requires n >= 1 && DialectOk(d) && TokensOk(ts) && ParseDeclaration(d, ts, n - 1).Parsed?
    ensures var r := ParseDeclaration(d, ts, n - 1); IsStatement(d, r.value, n) && TokensOk(r.rest)
  {
    hide DialectOk, TokensOk, ParseNames, ParseExpression, IsExpression, AreVariables;
    TailOk(ts, 1);
    NamesReturned(d, ts[1..], n - 2);
    var names := ParseNames(d, ts[1..], n - 2);
    if StartsWith(names.rest, Assign) {
      TailOk(names.rest, 1);
      ExpressionReturned(d, names.rest[1..], n - 2);
    }
  }

  lemma {:induction false} ResultsReturned(d: Dialect, ts: seq<Token>, n: nat)
    requires TokensOk(ts) && ParseResults(d, ts, n).Parsed?
    ensures var r := ParseResults(d, ts, n); (r.value != [] ==> n >= 1) && AreVariables(d, r.value) && TokensOk(r.rest)
  {
    hide TokensOk, IsVariable, IsName, ParseReturns;
    if StartsWith(ts, Minus) {
      TailOk(ts, 2);
      ReturnsReturned(d, ts[2..], n);
    }
  }

  lemma {:induction false} DefinitionReturned(d: Dialect, ts: seq<Token>, n: nat)
    requires n >= 1 && DialectOk(d) && TokensOk(ts) && ParseDefinition(d, ts, n - 1).Parsed?
    ensures var r := ParseDefinition(d, ts, n - 1); IsStatement(d, r.value, n) && TokensOk(r.rest)
    decreases n, 0, 0
  {
    hide DialectOk, TokensOk, ExpectName, ParseParameters, ParseResults, ParseBlock, IsBlock, AreVariables, IsVariable;
    hide IsName;
    TailOk(ts, 1);
    NameReturned(d, ts[1..]);
    ExpectOk(ExpectName(d, ts[1..]), LParen);
    var name := Expect(ExpectName(d, ts[1..]), LParen);
    ParametersReturned(d, name.rest, n - 2);
    ExpectOk(ParseParameters(d, name.rest, n - 2), RParen);
    var ps := Expect(ParseParameters(d, name.rest, n - 2), RParen);
    ResultsReturned(d, ps.rest, n - 2);
    BlockReturned(d, ParseResults(d, ps.rest, n - 2).rest, n - 2);
  }

  lemma {:induction false} ConditionalReturned(d: Dialect, ts: seq<Token>, n: nat)
    requires n >= 1 && DialectOk(d) && TokensOk(ts) && ParseConditional(d, ts, n - 1).Parsed?
    ensures var r := ParseConditional(d, ts, n - 1); IsStatement(d, r.value, n) && TokensOk(r.rest)
    decreases n, 0, 0
  {
    hide DialectOk, TokensOk, ParseExpression, ParseBlock, IsBlock, IsExpression;
    ExpressionReturned(d, ts, n - 1);
    BlockReturned(d, ParseExpression(d, ts, n - 1).rest, n - 1);
  }

  lemma {:induction false} LoopReturned(d: Dialect, ts: seq<Token>, n: nat)
    requires n >= 1 && DialectOk(d) && TokensOk(ts) && ParseLoop(d, ts, n - 1).Parsed?
    ensures var r := ParseLoop(d, ts, n - 1); IsStatement(d, r.value, n) && TokensOk(r.rest)
    decreases n, 0, 0
  {
    hide DialectOk, TokensOk, ParseExpression, ParseBlock, IsBlock, IsExpression;
    TailOk(ts, 1);
    var pre := ParseBlock(d, ts[1..], n - 2);
    BlockReturned(d, ts[1..], n - 2);
    var c := ParseExpression(d, pre.rest, n - 2);
    ExpressionReturned(d, pre.rest, n - 2);
    var post := ParseBlock(d, c.rest, n - 2);
    BlockReturned(d, c.rest, n - 2);
    BlockReturned(d, post.rest, n - 2);
  }

  lemma {:induction false} SelectionReturned(d: Dialect, ts: seq<Token>, n: nat)
    requires n >= 1 && DialectOk(d) && TokensOk(ts) && ParseSelection(d, ts, n - 1).Parsed?
    ensures var r := ParseSelection(d, ts, n - 1); IsStatement(d, r.value, n) && TokensOk(r.rest)
    decreases n, 0, 0
  {
    hide DialectOk, TokensOk, ParseExpression, ParseCases, AreCases, IsExpression, IsKind;
    ExpressionReturned(d, ts, n - 1);
    CasesReturned(d, ParseExpression(d, ts, n - 1).rest, n - 1);
  }

  lemma {:induction false} CasesReturned(d: Dialect, ts: seq<Token>, n: nat)
    requires DialectOk(d) && TokensOk(ts) && ParseCases(d, ts, n).Parsed?
    ensures var r := ParseCases(d, ts, n); AreCases(d, r.value, n) && TokensOk(r.rest)
    decreases n, 1, |ts|
  {
    hide DialectOk, TokensOk, ParseCase, IsCase, KindOf;
    if IsKind(d, ts, Case) {
      CaseReturned(d, ts, n);
      var c := ParseCase(d, ts, n);
      CasesReturned(d, c.rest, n);
      var others := ParseCases(d, c.rest, n).value;
      assert ([c.value] + others)[1..] == others;
    } else if IsKind(d, ts, Default) {
      CaseReturned(d, ts, n);
      var c := ParseCase(d, ts, n).value;
      assert [c][1..] == [];
    }
  }

  lemma {:induction false} CaseReturned(d: Dialect, ts: seq<Token>, n: nat)
    requires DialectOk(d) && TokensOk(ts) && ParseCase(d, ts, n).Parsed?
    ensures var r := ParseCase(d, ts, n); IsCase(d, r.value, n) && TokensOk(r.rest)
    ensures ParseCase(d, ts, n).value.label_.None? <==> IsKind(d, ts, Default)
    decreases n, 0, 0
  {
    hide DialectOk, TokensOk, ParseElementary, ParseBlock, IsBlock, IsNumber, AreBytes, IsKind, CanBeName;
    TailOk(ts, 1);
    if IsKind(d, ts, Default) {
      BlockReturned(d, ts[1..], n - 1);
    } else {
      ElementaryReturned(d, ts[1..], n - 1);
      BlockReturned(d, ParseElementary(d, ts[1..], n - 1).rest, n - 1);
    }
  }

  // ----- the round trip -----

  lemma {:induction false} ExpressionSpelled(d: Dialect, e: Expression, n: nat)
    requires IsExpression(d, e, n) || IsCall(d, e, n)
    ensures Spelled(d, e)
    decreases e
  {
    hide IsName, KindOf, IsNumber, AreBytes, InfoOf, IsStackShuffle;
    if e.Operation? || e.Call? {
      var m := if IsCall(d, e, n) then n - 1 else n - 2;
      ExpressionsSpelled(d, e.args, m);
    }
  }

  lemma {:induction false} ExpressionsSpelled(d: Dialect, es: seq<Expression>, n: nat)
    requires AreExpressions(d, es, n)
    ensures forall i :: 0 <= i < |es| ==> Spelled(d, es[i])
    decreases es
  {
    hide IsExpression, Spelled;
    if es != [] {
      ExpressionSpelled(d, es[0], n);
      ExpressionsSpelled(d, es[1..], n);
      assert forall i :: 1 <= i < |es| ==> es[i] == es[1..][i - 1];
    }
  }

  lemma {:induction false} StatementSpelled(d: Dialect, s: Statement, n: nat)
    requires IsStatement(d, s, n)
    ensures SpelledStatement(d, s)
    decreases s, 0
  {
    hide IsName, IsVariable, IsExpression, IsCall, AreStatements, IsCase, SpelledStatements, SpelledCases, Spelled;
    match s
    case Evaluate(e) => ExpressionSpelled(d, e, n - 1);
    case Assignment(_, v) => ExpressionSpelled(d, v, n - 1);
    case Declaration(_, init) => if init.Some? { ExpressionSpelled(d, init.value, n - 2); }
    case Definition(_, _, _, b) => StatementsSpelled(d, b, n - 3);
    case Conditional(c, b) => ExpressionSpelled(d, c, n - 1); StatementsSpelled(d, b, n - 2);
    case Selection(e, cases) => ExpressionSpelled(d, e, n - 1); CasesSpelled(d, cases, n - 1);
    case Loop(pre, c, post, b) =>
      StatementsSpelled(d, pre, n - 3);
      ExpressionSpelled(d, c, n - 2);
      StatementsSpelled(d, post, n - 3);
      StatementsSpelled(d, b, n - 3);
    case Leave =>
    case Next =>
    case Block(b) => StatementsSpelled(d, b, n - 2);
  }

  lemma {:induction false} StatementsSpelled(d: Dialect, ss: seq<Statement>, n: nat)
    requires AreStatements(d, ss, n)
    ensures SpelledStatements(d, ss)
    decreases ss, 0
  {
    hide IsStatement, SpelledStatement;
    if ss != [] {
      StatementSpelled(d, ss[0], n);
      StatementsSpelled(d, ss[1..], n);
    }
  }

  lemma {:induction false} CasesSpelled(d: Dialect, cases: seq<SwitchCase>, n: nat)
    requires AreCases(d, cases, n)
    ensures SpelledCases(d, cases)
    decreases cases, 0
  {
    hide AreStatements, SpelledStatements, IsNumber, AreBytes;
    if cases != [] {
      assert IsCase(d, cases[0], n) && IsBlock(d, cases[0].body, n - 1);
      StatementsSpelled(d, cases[0].body, n - 2);
      CasesSpelled(d, cases[1..], n);
    }
  }

  /** A text is scanned and parsed. */
  function Read(d: Dialect, text: string): Option<seq<Statement>> {
    var ts := Lex(text);
    if ts.None? then None else Parse(d, ts.value)
  }

  /** Every program that can be parsed is read back from its printed text, unchanged. */
  lemma {:induction false} PrintedIsReadBack(d: Dialect, program: seq<Statement>)
    requires DialectOk(d) && IsProgram(d, program)
    ensures Read(d, PrintBlock(d, program)) == Some(program)
  {
    hide DialectOk, AreStatements, SpelledStatements, PrintBlock, BlockTokens, ParseBlock, Lex;
    var ts := BlockTokens(d, program);
    StatementsSpelled(d, program, MAX_DEPTH - 1);
    ReadsBlock(d, program);
    BlockBack(d, program, [], MAX_DEPTH);
    assert ts + [] == ts;
  }

  /** Whatever a text is read as can be printed and read back. */
  lemma {:induction false} ReadIsReadBack(d: Dialect, text: string)
    requires DialectOk(d) && AreBytes(text) && Read(d, text).Some?
    ensures var program := Read(d, text).value;
            IsProgram(d, program) && Read(d, PrintBlock(d, program)) == Some(program)
  {
    hide DialectOk, IsBlock, AreBytes, TokensOk, ParseBlock, PrintBlock, Lex;
    LexOk(text);
    BlockReturned(d, Lex(text).value, MAX_DEPTH);
    PrintedIsReadBack(d, Read(d, text).value);
  }

  /** Different programs are printed differently. */
  lemma {:induction false} PrintingIsInjective(d: Dialect, p: seq<Statement>, q: seq<Statement>)
    requires DialectOk(d) && IsProgram(d, p) && IsProgram(d, q) && PrintBlock(d, p) == PrintBlock(d, q)
    ensures p == q
  {
    hide DialectOk, IsProgram, PrintBlock, Read;
    PrintedIsReadBack(d, p);
    PrintedIsReadBack(d, q);
  }
}
