/** The printer of strict assembly, and what the scanner makes of its texts. */
module YulPrinter {
  import opened Instructions
  import opened Items
  import opened Machine
  import opened Yul
  import opened YulScanner
  import opened YulLexing

  // ----- printing -----

  function HexDigit(n: int): char
    requires 0 <= n < 16
  {
    if n < 10 then ('0' as int + n) as char else ('a' as int + (n - 10)) as char
  }

  predicate IsPrintable(c: char) { ' ' <= c <= '~' }

  function EscapeChar(c: char): string
    requires c as int < 256
  {
    if c == '\\' then "\\\\"
    else if c == '"' then "\\\""
    else if c as int == 8 then "\\b"
    else if c as int == 12 then "\\f"
    else if c == '\n' then "\\n"
    else if c == '\r' then "\\r"
    else if c == '\t' then "\\t"
    else if c as int == 11 then "\\v"
    else if !IsPrintable(c) then ['\\', 'x', HexDigit(c as int / 16), HexDigit(c as int % 16)]
    else [c]
  }

  function EscapeText(v: string): string
    requires AreBytes(v)
    decreases |v|
  {
    if v == "" then "" else EscapeChar(v[0]) + EscapeText(v[1..])
  }

  function Quoted(v: string): string { if AreBytes(v) then "\"" + EscapeText(v) + "\"" else "" }

  function PrintExpression(d: Dialect, e: Expression): string
    decreases e
  {
    match e
    case Literal(isText, v) => if isText then Quoted(v) else v
    case Identifier(n) => n
    case Operation(op, args) => NameOf(d, op) + "(" + PrintArguments(d, args) + ")"
    case Call(f, args) => f + "(" + PrintArguments(d, args) + ")"
  }

  function PrintArguments(d: Dialect, es: seq<Expression>): string
    decreases es
  {
    if es == [] then "" else PrintExpression(d, es[0]) + if |es| == 1 then "" else ", " + PrintArguments(d, es[1..])
  }

  function PrintNames(names: seq<string>): string
    decreases |names|
  {
    if names == [] then "" else names[0] + if |names| == 1 then "" else ", " + PrintNames(names[1..])
  }

  predicate OneLine(s: string) { '\n' !in s }

  function PrintStatement(d: Dialect, s: Statement): string
    decreases s, 0
  {
    match s
    case Evaluate(e) => PrintExpression(d, e)
    case Assignment(names, v) => PrintNames(names) + " := " + PrintExpression(d, v)
    case Declaration(names, init) => "let " + PrintNames(names) + if init.None? then "" else " := " + PrintExpression(d, init.value)
    case Definition(n, ps, rs, b) =>
      "function " + n + "(" + PrintNames(ps) + ")" + (if rs == [] then "" else " -> " + PrintNames(rs)) + "\n" + PrintBlock(d, b)
    case Conditional(c, b) =>
      var body := PrintBlock(d, b);
      "if " + PrintExpression(d, c) + (if OneLine(body) then " " else "\n") + body
    case Selection(e, cases) => "switch " + PrintExpression(d, e) + PrintCases(d, cases)
    case Loop(pre, c, post, b) => PrintLoop(PrintBlock(d, pre), PrintExpression(d, c), PrintBlock(d, post), PrintBlock(d, b))
    case Leave => "break"
    case Next => "continue"
    case Block(b) => PrintBlock(d, b)
  }

  function PrintLoop(pre: string, c: string, post: string, body: string): string {
    var delimiter := if |pre| + |c| + |post| < 60 && OneLine(pre) && OneLine(post) then " " else "\n";
    "for " + pre + delimiter + c + delimiter + post + "\n" + body
  }

  function PrintBlock(d: Dialect, ss: seq<Statement>): string
    decreases ss, 1
  {
    if ss == [] then "{ }" else Braced(PrintStatements(d, ss))
  }

  function Braced(body: string): string {
    if |body| < 30 && OneLine(body) then "{ " + body + " }" else "{\n    " + Indent(body) + "\n}"
  }

  function PrintStatements(d: Dialect, ss: seq<Statement>): string
    decreases ss, 0
  {
    if ss == [] then "" else PrintStatement(d, ss[0]) + if |ss| == 1 then "" else "\n" + PrintStatements(d, ss[1..])
  }

  function PrintCase(d: Dialect, c: SwitchCase): string
    decreases c, 0
  {
    (if c.label_.None? then "\ndefault " else "\ncase " + PrintExpression(d, c.label_.value) + " ") + PrintBlock(d, c.body)
  }

  function PrintCases(d: Dialect, cases: seq<SwitchCase>): string
    decreases cases, 0
  {
    if cases == [] then "" else PrintCase(d, cases[0]) + PrintCases(d, cases[1..])
  }

  // ----- trees whose parts are spelled like tokens -----

  predicate Spelled(d: Dialect, e: Expression)
    decreases e
  {
    match e
    case Literal(isText, v) => if isText then AreBytes(v) else IsNumber(v)
    case Identifier(n) => IsName(n)
    case Operation(op, args) => op in d.nameOf && forall i :: 0 <= i < |args| ==> Spelled(d, args[i])
    case Call(f, args) => IsName(f) && forall i :: 0 <= i < |args| ==> Spelled(d, args[i])
  }

  predicate SpelledStatement(d: Dialect, s: Statement)
    decreases s, 0
  {
    match s
    case Evaluate(e) => Spelled(d, e)
    case Assignment(names, v) => AreNames(names) && names != [] && Spelled(d, v)
    case Declaration(names, init) => AreNames(names) && names != [] && (init.Some? ==> Spelled(d, init.value))
    case Definition(n, ps, rs, b) => IsName(n) && AreNames(ps) && AreNames(rs) && SpelledStatements(d, b)
    case Conditional(c, b) => Spelled(d, c) && SpelledStatements(d, b)
    case Selection(e, cases) => Spelled(d, e) && SpelledCases(d, cases)
    case Loop(pre, c, post, b) => SpelledStatements(d, pre) && Spelled(d, c) && SpelledStatements(d, post) && SpelledStatements(d, b)
    case Leave => true
    case Next => true
    case Block(b) => SpelledStatements(d, b)
  }

  predicate SpelledStatements(d: Dialect, ss: seq<Statement>)
    decreases ss, 0
  {
    ss == [] || (SpelledStatement(d, ss[0]) && SpelledStatements(d, ss[1..]))
  }

  predicate SpelledCases(d: Dialect, cases: seq<SwitchCase>)
    decreases cases, 0
  {
    cases == [] ||
    ((cases[0].label_.Some? ==> Spelled(d, cases[0].label_.value)) && SpelledStatements(d, cases[0].body) && SpelledCases(d, cases[1..]))
  }

  // ----- scanning what was printed -----

  /** A text that is scanned as given tokens, in which no backslash precedes a newline. */
  predicate Reads(text: string, tokens: seq<Token>) { Lex(text) == Some(tokens) && Clean(text) }

  lemma {:induction false} ReadsThen(a: string, ta: seq<Token>, b: string, tb: seq<Token>)
    requires Reads(a, ta) && Reads(b, tb) && Apart(a, b)
    ensures Reads(a + b, ta + tb)
  {
    hide Lex, Clean, Apart;
    LexConcat(a, b);
    CleanConcat(a, b);
  }

  lemma {:induction false} ReadsNothing()
    ensures Reads("", [])
  {
  }

  lemma {:induction false} ReadsWhite(w: string)
    requires w == " " || w == "\n" || w == "\n    "
    ensures Reads(w, [])
  {
    hide TokenAt;
    SkipWhite(w, "");
    assert w + "" == w;
  }

  lemma {:induction false} ReadsMark(w: string, t: Token)
    requires (w == "(" && t == LParen) || (w == ")" && t == RParen) || (w == "{" && t == LBrace) || (w == "}" && t == RBrace) || (w == "," && t == Comma)
    ensures Reads(w, [t])
  {
    hide TextAt, WordEnd, NumberAt;
    WholeToken(w, t);
  }

  lemma {:induction false} WholeToken(s: string, t: Token)
    requires s != "" && !IsWhite(s[0]) && TokenAt(s) == Found(t, |s|)
    ensures Lex(s) == Some([t])
  {
    hide TokenAt;
    assert s[|s|..] == "";
    assert Lex("") == Some([]);
    assert [t] + [] == [t];
  }

  lemma {:induction false} ReadsName(n: string)
    requires IsName(n)
    ensures Reads(n, [Word(n)])
  {
    WordEndIs(n, |n|);
    assert n[..|n|] == n;
    WholeToken(n, Word(n));
  }

  lemma {:induction false} ReadsNumber(t: string)
    requires IsNumber(t)
    ensures Reads(t, [Number(t)])
  {
    hide TextAt, WordEnd;
    assert t[..|t|] == t;
    if IsHexNumber(t) {
      assert t[0] == t[..2][0] && t[1] == t[..2][1];
      DigitsEndIs(t, 2, |t|, true);
    } else {
      DigitsEndIs(t, 0, |t|, false);
    }
    WholeToken(t, Number(t));
  }

  // ----- text literals -----

  lemma {:induction false} HexBack(n: int)
    requires 0 <= n < 16
    ensures IsHexDigit(HexDigit(n)) && HexValue(HexDigit(n)) == n
  {
  }

  /** Reading an escaped character gives it back. */
  lemma {:induction false} UnescapeChar(p: string, c: char, rest: string)
    requires c as int < 256
    ensures var s, i, n := p + (EscapeChar(c) + rest), |p|, |p| + |EscapeChar(c)|;
            if EscapeChar(c)[0] == '\\' then EscapeAt(s, i + 1) == Escaped([c], n) else EscapeChar(c) == [c]
  {
    var e := EscapeChar(c);
    var s := p + (e + rest);
    assert forall k :: 0 <= k < |e| ==> s[|p| + k] == e[k];
    if e[0] == '\\' {
      assert s[|p| + 1] == e[1];
      if |e| == 4 {
        HexBack(c as int / 16);
        HexBack(c as int % 16);
        assert s[|p| + 2] == e[2] && s[|p| + 3] == e[3];
        assert CharOf(HexValue(e[2]) * 16 + HexValue(e[3])) == c;
      }
    }
  }

  lemma {:induction false} PrintedIsNoBreak(s: string, i: nat)
    requires i < |s| && IsPrintable(s[i])
    ensures !IsLineBreak(s, i)
  {
  }

  lemma {:induction false} EscapesArePrintable(c: char)
    requires c as int < 256
    ensures |EscapeChar(c)| > 0 && IsPrintable(EscapeChar(c)[0]) && EscapeChar(c)[0] != '"'
    ensures OneLine(EscapeChar(c))
  {
  }

  /** Escaping and unescaping undo each other, for every byte string. */
  lemma {:induction false} UnescapeText(p: string, v: string)
    requires AreBytes(v)
    ensures TextAt(p + (EscapeText(v) + "\""), |p|, '"') == Scanned(v, |p| + |EscapeText(v)| + 1)
    decreases |v|
  {
    hide EscapeAt, EscapeChar, IsLineBreak, IsPrintable;
    var s := p + (EscapeText(v) + "\"");
    if v == "" {
      assert s[|p|] == '"';
    } else {
      var e, rest := EscapeChar(v[0]), EscapeText(v[1..]) + "\"";
      assert EscapeText(v) + "\"" == e + rest;
      EscapesArePrintable(v[0]);
      UnescapeChar(p, v[0], rest);
      assert s[|p|] == e[0];
      PrintedIsNoBreak(s, |p|);
      assert s == (p + e) + rest;
      UnescapeText(p + e, v[1..]);
      assert [v[0]] + v[1..] == v;
    }
  }

  lemma {:induction false} EscapedIsOneLine(v: string)
    requires AreBytes(v)
    ensures OneLine(EscapeText(v))
    decreases |v|
  {
    hide EscapeChar;
    if v != "" {
      EscapesArePrintable(v[0]);
      EscapedIsOneLine(v[1..]);
    }
  }

  lemma {:induction false} ReadsText(v: string)
    requires AreBytes(v)
    ensures Reads(Quoted(v), [Text(v)])
  {
    hide TextAt, EscapeText, NumberAt, WordEnd, Lex;
    var s := Quoted(v);
    assert s == "\"" + (EscapeText(v) + "\"");
    UnescapeText("\"", v);
    WholeToken(s, Text(v));
    EscapedIsOneLine(v);
    assert s[|s| - 1] == '"';
    forall i | 0 <= i < |s| && s[i] == '\\' ensures i + 1 < |s| && s[i + 1] != '\n' {
      assert s[i + 1] in s;
    }
  }
}
