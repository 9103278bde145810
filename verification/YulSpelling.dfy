/** Printed trees are scanned as the tokens of the tree. */
module YulSpelling {
  import opened Instructions
  import opened Items
  import opened Yul
  import opened YulScanner
  import opened YulLexing
  import opened YulPrinter

  // ----- separators -----

  lemma {:induction false} ReadsComma()
    ensures Reads(", ", [Comma])
  {
    ReadsMark(",", Comma);
    ReadsWhite(" ");
    ReadsThen(",", [Comma], " ", []);
    assert "," + " " == ", ";
  }

  lemma {:induction false} ReadsAssign()
    ensures Reads(" := ", [Assign])
  {
    var s := ":=";
    hide TextAt, WordEnd, NumberAt;
    WholeToken(s, Assign);
    ReadsWhite(" ");
    ReadsThen(" ", [], s, [Assign]);
    ReadsThen(" " + s, [] + [Assign], " ", []);
    assert " " + s + " " == " := " && [] + [Assign] + [] == [Assign];
  }

  lemma {:induction false} ReadsArrow()
    ensures Reads(" -> ", [Minus, Greater])
  {
    var s := "->";
    hide TextAt, WordEnd, NumberAt;
    assert s[1..] == ">" && TokenAt(s) == Found(Minus, 1);
    WholeToken(">", Greater);
    assert Lex(s) == Some([Minus] + [Greater]);
    ReadsWhite(" ");
    ReadsThen(" ", [], s, [Minus] + [Greater]);
    ReadsThen(" " + s, [] + ([Minus] + [Greater]), " ", []);
    assert " " + s + " " == " -> " && [] + ([Minus] + [Greater]) + [] == [Minus, Greater];
  }

  /** A keyword and a space. */
  lemma {:induction false} ReadsKeyword(w: string)
    requires IsName(w)
    ensures Reads(w + " ", [Word(w)])
  {
    hide Lex, Clean;
    ReadsName(w);
    ReadsWhite(" ");
    ReadsThen(w, [Word(w)], " ", []);
    assert [Word(w)] + [] == [Word(w)];
  }

  /** A text after a word and a space. */
  lemma {:induction false} ReadsAfter(w: string, text: string, tokens: seq<Token>)
    requires IsName(w) && Reads(text, tokens)
    ensures Reads(w + " " + text, [Word(w)] + tokens)
  {
    hide Lex, Clean;
    ReadsKeyword(w);
    ReadsThen(w + " ", [Word(w)], text, tokens);
  }

  /** Two texts on lines of their own, or with a space between them. */
  lemma {:induction false} ReadsApart(a: string, ta: seq<Token>, w: string, b: string, tb: seq<Token>)
    requires Reads(a, ta) && Reads(b, tb) && (w == " " || w == "\n")
    ensures Reads(a + w + b, ta + tb)
  {
    hide Lex, Clean;
    ReadsWhite(w);
    ReadsThen(a, ta, w, []);
    ReadsThen(a + w, ta + [], b, tb);
    assert ta + [] == ta;
  }

  // ----- expressions -----

  lemma {:induction false} ReadsCall(f: string, args: string, tokens: seq<Token>)
    requires IsName(f) && Reads(args, tokens)
    ensures Reads(f + "(" + args + ")", [Word(f), LParen] + tokens + [RParen])
  {
    hide Lex, Clean;
    ReadsName(f);
    ReadsMark("(", LParen);
    ReadsMark(")", RParen);
    ReadsThen(f, [Word(f)], "(", [LParen]);
    assert [Word(f)] + [LParen] == [Word(f), LParen];
    ReadsThen(f + "(", [Word(f), LParen], args, tokens);
    ReadsThen(f + "(" + args, [Word(f), LParen] + tokens, ")", [RParen]);
  }

  lemma {:induction false} ReadsExpression(d: Dialect, e: Expression)
    requires DialectOk(d) && Spelled(d, e)
    ensures Reads(PrintExpression(d, e), ExpressionTokens(d, e))
    decreases e
  {
    hide Reads, IsName, IsNumber, Quoted;
    match e
    case Literal(isText, v) => if isText { ReadsText(v); } else { ReadsNumber(v); }
    case Identifier(n) => ReadsName(n);
    case Operation(op, args) =>
      ReadsArguments(d, args);
      ReadsCall(NameOf(d, op), PrintArguments(d, args), ArgumentTokens(d, args));
    case Call(f, args) =>
      ReadsArguments(d, args);
      ReadsCall(f, PrintArguments(d, args), ArgumentTokens(d, args));
  }

  lemma {:induction false} ReadsListed(a: string, ta: seq<Token>, b: string, tb: seq<Token>)
    requires Reads(a, ta) && Reads(b, tb)
    ensures Reads(a + (", " + b), ta + ([Comma] + tb))
  {
    hide Lex, Clean;
    ReadsComma();
    ReadsThen(", ", [Comma], b, tb);
    ReadsThen(a, ta, ", " + b, [Comma] + tb);
  }

  lemma {:induction false} ReadsArguments(d: Dialect, es: seq<Expression>)
    requires DialectOk(d) && forall i :: 0 <= i < |es| ==> Spelled(d, es[i])
    ensures Reads(PrintArguments(d, es), ArgumentTokens(d, es))
    decreases es
  {
    hide Reads, Spelled, DialectOk, PrintExpression, ExpressionTokens;
    if es == [] {
      ReadsNothing();
    } else {
      var a, ta := PrintExpression(d, es[0]), ExpressionTokens(d, es[0]);
      ReadsExpression(d, es[0]);
      if |es| == 1 {
        assert a + "" == a && ta + [] == ta;
      } else {
        ReadsArguments(d, es[1..]);
        ReadsListed(a, ta, PrintArguments(d, es[1..]), ArgumentTokens(d, es[1..]));
      }
    }
  }

  lemma {:induction false} ReadsNames(names: seq<string>)
    requires AreNames(names)
    ensures Reads(PrintNames(names), NameTokens(names))
    decreases |names|
  {
    hide Reads, IsName;
    if names == [] {
      ReadsNothing();
    } else {
      ReadsName(names[0]);
      if |names| == 1 {
        assert names[0] + "" == names[0] && [Word(names[0])] + [] == [Word(names[0])];
      } else {
        ReadsNames(names[1..]);
        ReadsListed(names[0], [Word(names[0])], PrintNames(names[1..]), NameTokens(names[1..]));
      }
    }
  }

  // ----- statements -----

  lemma {:induction false} ReadsAssignment(a: string, ta: seq<Token>, b: string, tb: seq<Token>)
    requires Reads(a, ta) && Reads(b, tb)
    ensures Reads(a + " := " + b, ta + [Assign] + tb)
  {
    hide Lex, Clean;
    ReadsAssign();
    ReadsThen(a, ta, " := ", [Assign]);
    ReadsThen(a + " := ", ta + [Assign], b, tb);
  }

  /** Braces around a body, whether on one line or indented. */
  lemma {:induction false} ReadsBraced(body: string, tokens: seq<Token>)
    requires Reads(body, tokens)
    ensures Reads(Braced(body), [LBrace] + tokens + [RBrace])
  {
    hide Lex, Clean;
    ReadsMark("{", LBrace);
    ReadsMark("}", RBrace);
    if |body| < 30 && OneLine(body) {
      ReadsApart("{", [LBrace], " ", body, tokens);
      assert "{" + " " + body == "{ " + body;
      ReadsApart("{ " + body, [LBrace] + tokens, " ", "}", [RBrace]);
      assert "{ " + body + " " + "}" == "{ " + body + " }";
    } else {
      LexIndent(body);
      IndentClean(body);
      var inner := Indent(body);
      ReadsWhite("\n    ");
      ReadsThen("{", [LBrace], "\n    ", []);
      assert "{" + "\n    " == "{\n    " && [LBrace] + [] == [LBrace];
      ReadsThen("{\n    ", [LBrace], inner, tokens);
      ReadsApart("{\n    " + inner, [LBrace] + tokens, "\n", "}", [RBrace]);
      assert "{\n    " + inner + "\n" + "}" == "{\n    " + inner + "\n}";
    }
  }

  lemma {:induction false} ReadsBlock(d: Dialect, ss: seq<Statement>)
    requires DialectOk(d) && SpelledStatements(d, ss)
    ensures Reads(PrintBlock(d, ss), BlockTokens(d, ss))
    decreases ss, 2
  {
    hide Lex, Clean, Braced, SpelledStatements, DialectOk;
    if ss == [] {
      ReadsMark("{", LBrace);
      ReadsMark("}", RBrace);
      ReadsApart("{", [LBrace], " ", "}", [RBrace]);
      assert "{" + " " + "}" == "{ }" && [LBrace] + [] + [RBrace] == [LBrace] + [RBrace];
    } else {
      ReadsStatements(d, ss);
      ReadsBraced(PrintStatements(d, ss), StatementsTokens(d, ss));
    }
  }

  lemma {:induction false} ReadsStatements(d: Dialect, ss: seq<Statement>)
    requires DialectOk(d) && SpelledStatements(d, ss)
    ensures Reads(PrintStatements(d, ss), StatementsTokens(d, ss))
    decreases ss, 1
  {
    hide Reads, SpelledStatement, DialectOk, PrintStatement, StatementTokens;
    if ss == [] {
      ReadsNothing();
    } else {
      var a, ta := PrintStatement(d, ss[0]), StatementTokens(d, ss[0]);
      ReadsStatement(d, ss[0]);
      if |ss| == 1 {
        assert a + "" == a && ta + StatementsTokens(d, ss[1..]) == ta;
      } else {
        ReadsStatements(d, ss[1..]);
        ReadsApart(a, ta, "\n", PrintStatements(d, ss[1..]), StatementsTokens(d, ss[1..]));
        assert a + ("\n" + PrintStatements(d, ss[1..])) == a + "\n" + PrintStatements(d, ss[1..]);
      }
    }
  }

  lemma {:induction false} ReadsStatement(d: Dialect, s: Statement)
    requires DialectOk(d) && SpelledStatement(d, s)
    ensures Reads(PrintStatement(d, s), StatementTokens(d, s))
    decreases s, 1
  {
    hide Reads, DialectOk, Spelled, PrintExpression, ExpressionTokens, PrintBlock, BlockTokens, PrintCases, CaseTokens;
    hide PrintLoop, SpelledStatements, SpelledCases;
    match s
    case Evaluate(e) => ReadsExpression(d, e);
    case Assignment(names, v) =>
      ReadsNames(names);
      ReadsExpression(d, v);
      ReadsAssignment(PrintNames(names), NameTokens(names), PrintExpression(d, v), ExpressionTokens(d, v));
    case Declaration(names, init) => ReadsDeclaration(d, s);
    case Definition(n, ps, rs, b) =>
      ReadsBlock(d, b);
      ReadsDefinition(d, s);
    case Conditional(c, b) =>
      ReadsExpression(d, c);
      ReadsBlock(d, b);
      var w := if OneLine(PrintBlock(d, b)) then " " else "\n";
      ReadsAfter("if", PrintExpression(d, c), ExpressionTokens(d, c));
      assert "if" + " " + PrintExpression(d, c) == "if " + PrintExpression(d, c);
      ReadsApart("if " + PrintExpression(d, c), [Word("if")] + ExpressionTokens(d, c), w, PrintBlock(d, b),
          BlockTokens(d, b));
    case Selection(e, cases) =>
      ReadsExpression(d, e);
      ReadsCases(d, cases);
      ReadsSelection(d, e, cases);
    case Loop(pre, c, post, b) =>
      ReadsBlock(d, pre);
      ReadsExpression(d, c);
      ReadsBlock(d, post);
      ReadsBlock(d, b);
      ReadsLoop(PrintBlock(d, pre), BlockTokens(d, pre), PrintExpression(d, c), ExpressionTokens(d, c),
          PrintBlock(d, post), BlockTokens(d, post), PrintBlock(d, b), BlockTokens(d, b));
    case Leave => ReadsName("break");
    case Next => ReadsName("continue");
    case Block(b) => ReadsBlock(d, b);
  }

  lemma {:induction false} ReadsDeclaration(d: Dialect, s: Statement)
    requires s.Declaration? && DialectOk(d) && SpelledStatement(d, s)
    ensures Reads(PrintStatement(d, s), StatementTokens(d, s))
  {
    hide Reads, DialectOk, Spelled, PrintExpression, ExpressionTokens;
    var names, ts := PrintNames(s.names), NameTokens(s.names);
    ReadsNames(s.names);
    ReadsAfter("let", names, ts);
    assert "let" + " " + names == "let " + names;
    if s.init.None? {
      assert "let " + names + "" == "let " + names && [Word("let")] + ts + [] == [Word("let")] + ts;
    } else {
      var v, tv := PrintExpression(d, s.init.value), ExpressionTokens(d, s.init.value);
      ReadsExpression(d, s.init.value);
      ReadsAssignment("let " + names, [Word("let")] + ts, v, tv);
      assert "let " + names + " := " + v == "let " + names + (" := " + v);
      assert [Word("let")] + ts + [Assign] + tv == [Word("let")] + ts + ([Assign] + tv);
    }
  }

  lemma {:induction false} ReadsDefinition(d: Dialect, s: Statement)
    requires s.Definition? && IsName(s.name) && AreNames(s.parameters) && AreNames(s.returns_)
    requires Reads(PrintBlock(d, s.body), BlockTokens(d, s.body))
    ensures Reads(PrintStatement(d, s), StatementTokens(d, s))
  {
    hide Reads, PrintBlock, BlockTokens, PrintNames, NameTokens;
    var ps, tps := PrintNames(s.parameters), NameTokens(s.parameters);
    ReadsNames(s.parameters);
    ReadsCall(s.name, ps, tps);
    var head, th := s.name + "(" + ps + ")", [Word(s.name), LParen] + tps + [RParen];
    ReadsAfter("function", head, th);
    var start, ts := "function " + head, [Word("function")] + th;
    assert "function" + " " + head == start;
    ReadsReturns(start, ts, s.returns_, PrintBlock(d, s.body), BlockTokens(d, s.body));
    assert start == "function " + s.name + "(" + ps + ")";
    assert ts == [Word("function"), Word(s.name), LParen] + tps + [RParen];
  }

  lemma {:induction false} ReadsReturns(start: string, ts: seq<Token>, names: seq<string>, body: string, tb: seq<Token>)
    requires Reads(start, ts) && AreNames(names) && Reads(body, tb)
    ensures Reads(start + (if names == [] then "" else " -> " + PrintNames(names)) + "\n" + body,
                  ts + (if names == [] then [] else [Minus, Greater] + NameTokens(names)) + tb)
  {
    hide Lex, Clean, PrintNames, NameTokens;
    if names == [] {
      assert start + "" == start && ts + [] == ts;
      ReadsApart(start, ts, "\n", body, tb);
    } else {
      var rs, trs := PrintNames(names), NameTokens(names);
      ReadsNames(names);
      ReadsArrow();
      ReadsThen(" -> ", [Minus, Greater], rs, trs);
      ReadsThen(start, ts, " -> " + rs, [Minus, Greater] + trs);
      ReadsApart(start + (" -> " + rs), ts + ([Minus, Greater] + trs), "\n", body, tb);
    }
  }

  lemma {:induction false} ReadsSelection(d: Dialect, e: Expression, cases: seq<SwitchCase>)
    requires Reads(PrintExpression(d, e), ExpressionTokens(d, e)) && Reads(PrintCases(d, cases), CaseTokens(d, cases))
    ensures Reads(PrintStatement(d, Selection(e, cases)), StatementTokens(d, Selection(e, cases)))
  {
    hide Lex, Clean, PrintExpression, ExpressionTokens, PrintCases, CaseTokens;
    var a, ta := PrintExpression(d, e), ExpressionTokens(d, e);
    ReadsAfter("switch", a, ta);
    assert "switch" + " " + a == "switch " + a;
    CasesStartALine(d, cases);
    ReadsThen("switch " + a, [Word("switch")] + ta, PrintCases(d, cases), CaseTokens(d, cases));
  }

  lemma {:induction false} CasesStartALine(d: Dialect, cases: seq<SwitchCase>)
    ensures PrintCases(d, cases) == "" || PrintCases(d, cases)[0] == '\n'
  {
    hide PrintExpression, PrintBlock;
  }

  lemma {:induction false} ReadsCases(d: Dialect, cases: seq<SwitchCase>)
    requires DialectOk(d) && SpelledCases(d, cases)
    ensures Reads(PrintCases(d, cases), CaseTokens(d, cases))
    decreases cases, 1
  {
    hide Lex, Clean, DialectOk, Spelled, SpelledStatements, PrintCase, OneCaseTokens;
    if cases == [] {
      ReadsNothing();
    } else {
      ReadsCase(d, cases[0]);
      ReadsCases(d, cases[1..]);
      CasesStartALine(d, cases[1..]);
      ReadsThen(PrintCase(d, cases[0]), OneCaseTokens(d, cases[0]), PrintCases(d, cases[1..]),
          CaseTokens(d, cases[1..]));
    }
  }

  lemma {:induction false} ReadsCase(d: Dialect, c: SwitchCase)
    requires DialectOk(d) && (c.label_.Some? ==> Spelled(d, c.label_.value)) && SpelledStatements(d, c.body)
    ensures Reads(PrintCase(d, c), OneCaseTokens(d, c))
    decreases c, 1
  {
    hide Lex, Clean, DialectOk, Spelled, SpelledStatements, PrintBlock, BlockTokens, PrintExpression, ExpressionTokens;
    var b, tb := PrintBlock(d, c.body), BlockTokens(d, c.body);
    ReadsBlock(d, c.body);
    ReadsNothing();
    if c.label_.None? {
      ReadsAfter("default", b, tb);
      ReadsApart("", [], "\n", "default" + " " + b, [Word("default")] + tb);
      assert "" + "\n" + ("default" + " " + b) == "\ndefault " + b;
      assert [] + ([Word("default")] + tb) == [Word("default")] + tb;
    } else {
      var a, ta := PrintExpression(d, c.label_.value), ExpressionTokens(d, c.label_.value);
      ReadsExpression(d, c.label_.value);
      ReadsAfter("case", a, ta);
      ReadsApart("case" + " " + a, [Word("case")] + ta, " ", b, tb);
      ReadsApart("", [], "\n", "case" + " " + a + " " + b, [Word("case")] + ta + tb);
      assert "" + "\n" + ("case" + " " + a + " " + b) == "\ncase " + a + " " + b;
      assert [] + ([Word("case")] + ta + tb) == [Word("case")] + ta + tb;
    }
  }

  lemma {:induction false} ReadsLoop(pre: string, tpre: seq<Token>, c: string, tc: seq<Token>, post: string,
      tpost: seq<Token>, body: string, tbody: seq<Token>)
    requires Reads(pre, tpre) && Reads(c, tc) && Reads(post, tpost) && Reads(body, tbody)
    ensures Reads(PrintLoop(pre, c, post, body), [Word("for")] + tpre + tc + tpost + tbody)
  {
    hide Lex, Clean;
    var w := if |pre| + |c| + |post| < 60 && OneLine(pre) && OneLine(post) then " " else "\n";
    ReadsAfter("for", pre, tpre);
    assert "for" + " " + pre == "for " + pre;
    ReadsApart("for " + pre, [Word("for")] + tpre, w, c, tc);
    ReadsApart("for " + pre + w + c, [Word("for")] + tpre + tc, w, post, tpost);
    ReadsApart("for " + pre + w + c + w + post, [Word("for")] + tpre + tc + tpost, "\n", body, tbody);
    assert "for " + pre + w + c + w + post + "\n" + body == PrintLoop(pre, c, post, body);
  }
}
