/** Strict assembly: characters, tokens and trees. */
module Yul {
  import opened Instructions
  import opened Items

  // ----- characters -----

  predicate IsDigit(c: char) { '0' <= c <= '9' }
  predicate IsHexDigit(c: char) { IsDigit(c) || 'a' <= c <= 'f' || 'A' <= c <= 'F' }
  predicate IsIdentifierStart(c: char) { c == '_' || c == '$' || 'a' <= c <= 'z' || 'A' <= c <= 'Z' }
  predicate IsIdentifierPart(c: char) { IsIdentifierStart(c) || IsDigit(c) }
  predicate IsWhite(c: char) { c == ' ' || c == '\n' || c == '\t' || c == '\r' }

  // ----- tokens -----

  /** Words are identifiers and keywords. */
  datatype Token = LBrace | RBrace | LParen | RParen | Comma | Colon | Assign | Minus | Greater
                 | Text(value: string) | Number(digits: string) | Word(name: string)

  datatype WordKind = Let | Function | If | Switch | Case | Default | For | Break | Continue | Plain | Reserved

  /** What the parser is told about: instruction names, built-in functions, and the keywords of
      the surrounding language, none of which can be an instruction name. */
  datatype Dialect = Dialect(instructions: map<string, Opcode>, nameOf: map<Opcode, string>, builtins: set<string>, reserved: set<string>)

  function KindOf(d: Dialect, w: string): WordKind {
    if w == "let" then Let
    else if w == "function" then Function
    else if w == "if" then If
    else if w == "switch" then Switch
    else if w == "case" then Case
    else if w == "default" then Default
    else if w == "for" then For
    else if w == "break" then Break
    else if w == "continue" then Continue
    else if w in d.reserved then Reserved
    else Plain
  }

  /** A word the scanner can produce; names may contain periods. */
  predicate IsWord(w: string) {
    |w| > 0 && IsIdentifierStart(w[0]) && forall i :: 0 <= i < |w| ==> IsIdentifierPart(w[i]) || w[i] == '.'
  }

  /** Not the keyword that starts a hexadecimal literal. */
  predicate IsName(n: string) { IsWord(n) && n != "hex" }

  predicate AreNames(names: seq<string>) { forall i :: 0 <= i < |names| ==> IsName(names[i]) }

  predicate IsDecimal(t: string) { |t| > 0 && (t == "0" || t[0] != '0') && forall i :: 0 <= i < |t| ==> IsDigit(t[i]) }

  predicate IsHexNumber(t: string) { |t| > 2 && t[..2] == "0x" && forall i :: 2 <= i < |t| ==> IsHexDigit(t[i]) }

  predicate IsNumber(t: string) { IsDecimal(t) || IsHexNumber(t) }

  predicate AreBytes(s: string) { forall i :: 0 <= i < |s| ==> s[i] as int < 256 }

  /** Every instruction has a name of its own that is scanned as a plain word. */
  predicate DialectOk(d: Dialect) {
    && (forall n :: n in d.instructions ==> d.instructions[n] in d.nameOf)
    && (forall op :: op in d.nameOf ==>
          var n := d.nameOf[op];
          n in d.instructions && d.instructions[n] == op && n !in d.builtins && IsName(n) && KindOf(d, n) == Plain)
  }

  // ----- trees -----

  datatype Expression =
    | Literal(isText: bool, value: string)
    | Identifier(name: string)
    | Operation(op: Opcode, args: seq<Expression>)
    | Call(function_: string, args: seq<Expression>)

  datatype Statement =
    | Evaluate(expression: Expression)
    | Assignment(names: seq<string>, value: Expression)
    | Declaration(names: seq<string>, init: Option<Expression>)
    | Definition(name: string, parameters: seq<string>, returns_: seq<string>, body: seq<Statement>)
    | Conditional(condition: Expression, body: seq<Statement>)
    | Selection(expression: Expression, cases: seq<SwitchCase>)
    | Loop(pre: seq<Statement>, condition: Expression, post: seq<Statement>, body: seq<Statement>)
    | Leave
    | Next
    | Block(body: seq<Statement>)

  /** A literal, or none for the default case. */
  datatype SwitchCase = SwitchCase(label_: Option<Expression>, body: seq<Statement>)

  // ----- the tokens of a tree -----

  function ExpressionTokens(d: Dialect, e: Expression): seq<Token>
    decreases e
  {
    match e
    case Literal(isText, v) => [if isText then Text(v) else Number(v)]
    case Identifier(n) => [Word(n)]
    case Operation(op, args) => [Word(NameOf(d, op)), LParen] + ArgumentTokens(d, args) + [RParen]
    case Call(f, args) => [Word(f), LParen] + ArgumentTokens(d, args) + [RParen]
  }

  function NameOf(d: Dialect, op: Opcode): string { if op in d.nameOf then d.nameOf[op] else "" }

  function ArgumentTokens(d: Dialect, es: seq<Expression>): seq<Token>
    decreases es
  {
    if es == [] then [] else ExpressionTokens(d, es[0]) + if |es| == 1 then [] else [Comma] + ArgumentTokens(d, es[1..])
  }

  function NameTokens(names: seq<string>): seq<Token>
    decreases |names|
  {
    if names == [] then [] else [Word(names[0])] + if |names| == 1 then [] else [Comma] + NameTokens(names[1..])
  }

  function StatementTokens(d: Dialect, s: Statement): seq<Token>
    decreases s, 0
  {
    match s
    case Evaluate(e) => ExpressionTokens(d, e)
    case Assignment(names, v) => NameTokens(names) + [Assign] + ExpressionTokens(d, v)
    case Declaration(names, init) => [Word("let")] + NameTokens(names) + if init.None? then [] else [Assign] + ExpressionTokens(d, init.value)
    case Definition(n, ps, rs, b) =>
      [Word("function"), Word(n), LParen] + NameTokens(ps) + [RParen] + (if rs == [] then [] else [Minus, Greater] + NameTokens(rs)) + BlockTokens(d, b)
    case Conditional(c, b) => [Word("if")] + ExpressionTokens(d, c) + BlockTokens(d, b)
    case Selection(e, cases) => [Word("switch")] + ExpressionTokens(d, e) + CaseTokens(d, cases)
    case Loop(pre, c, post, b) => [Word("for")] + BlockTokens(d, pre) + ExpressionTokens(d, c) + BlockTokens(d, post) + BlockTokens(d, b)
    case Leave => [Word("break")]
    case Next => [Word("continue")]
    case Block(b) => BlockTokens(d, b)
  }

  function BlockTokens(d: Dialect, ss: seq<Statement>): seq<Token>
    decreases ss, 1
  {
    [LBrace] + StatementsTokens(d, ss) + [RBrace]
  }

  function StatementsTokens(d: Dialect, ss: seq<Statement>): seq<Token>
    decreases ss, 0
  {
    if ss == [] then [] else StatementTokens(d, ss[0]) + StatementsTokens(d, ss[1..])
  }

  function OneCaseTokens(d: Dialect, c: SwitchCase): seq<Token>
    decreases c, 0
  {
    (if c.label_.None? then [Word("default")] else [Word("case")] + ExpressionTokens(d, c.label_.value)) + BlockTokens(d, c.body)
  }

  function CaseTokens(d: Dialect, cases: seq<SwitchCase>): seq<Token>
    decreases cases, 0
  {
    if cases == [] then [] else OneCaseTokens(d, cases[0]) + CaseTokens(d, cases[1..])
  }
}
