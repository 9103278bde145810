/** Parsing strict assembly: trees out of tokens. */
module YulParser {
  import opened Instructions
  import opened Items
  import opened Yul

  /** Parsing functions call each other to a limited depth; `n` is how many more levels there may be. */
  const MAX_DEPTH: nat := 2559

  datatype Parsed<+T> = Failed | Parsed(value: T, rest: seq<Token>)

  /** A name, an instruction or a literal, from which larger things start. */
  datatype Elementary = Opcode_(op: Opcode) | Name(name: string) | Constant(isText: bool, value: string)

  predicate StartsWith(ts: seq<Token>, t: Token) { ts != [] && ts[0] == t }

  function Expect<T>(p: Parsed<T>, t: Token): (r: Parsed<T>)
    ensures r.Parsed? ==> p.Parsed? && r.value == p.value && |r.rest| < |p.rest|
  {
    if p.Parsed? && StartsWith(p.rest, t) then Parsed(p.value, p.rest[1..]) else Failed
  }

  predicate IsKind(d: Dialect, ts: seq<Token>, kind: WordKind) {
    ts != [] && ts[0].Word? && KindOf(d, ts[0].name) == kind
  }

  function ParseElementary(d: Dialect, ts: seq<Token>, n: nat): (r: Parsed<Elementary>)
    ensures r.Parsed? ==> |r.rest| < |ts|
  {
    if n == 0 || ts == [] then Failed
    else
      match ts[0]
      case Word(w) =>
        if KindOf(d, w) != Plain then Failed
        else if w !in d.builtins && w in d.instructions then Parsed(Opcode_(d.instructions[w]), ts[1..])
        else Parsed(Name(w), ts[1..])
      case Text(v) => Parsed(Constant(true, v), ts[1..])
      case Number(t) => if IsNumber(t) then Parsed(Constant(false, t), ts[1..]) else Failed
      case LBrace => Failed
      case RBrace => Failed
      case LParen => Failed
      case RParen => Failed
      case Comma => Failed
      case Colon => Failed
      case Assign => Failed
      case Minus => Failed
      case Greater => Failed
  }

  predicate IsStackShuffle(op: Opcode) { IsDup(op) || IsSwap(op) }

  // ----- expressions -----

  function ParseExpression(d: Dialect, ts: seq<Token>, n: nat): (r: Parsed<Expression>)
    ensures r.Parsed? ==> |r.rest| < |ts|
    decreases n, 0, 0
  {
    if n == 0 then Failed
    else
      var start := ParseElementary(d, ts, n - 1);
      if start.Failed? then Failed
      else if start.value.Opcode_? && (InfoOf(start.value.op).ret != 1 || IsStackShuffle(start.value.op)) then Failed
      else if StartsWith(start.rest, LParen) then ParseCall(d, start.value, start.rest, n - 1)
      else
        match start.value
        case Opcode_(_) => Failed
        case Name(w) => Parsed(Identifier(w), start.rest)
        case Constant(isText, v) => Parsed(Literal(isText, v), start.rest)
  }

  function ParseCall(d: Dialect, start: Elementary, ts: seq<Token>, n: nat): (r: Parsed<Expression>)
    ensures r.Parsed? ==> |r.rest| < |ts|
    decreases n, 0, 0
  {
    if n == 0 || !StartsWith(ts, LParen) then Failed
    else
      match start
      case Opcode_(op) =>
        if IsStackShuffle(op) then Failed
        else
          var args := Expect(ParseExact(d, ts[1..], InfoOf(op).args, n - 1), RParen);
          if args.Failed? then Failed else Parsed(Expression.Operation(op, args.value), args.rest)
      case Name(f) =>
        var args := Expect(ParseArguments(d, ts[1..], n - 1), RParen);
        if args.Failed? then Failed else Parsed(Call(f, args.value), args.rest)
      case Constant(_, _) => Failed
  }

  /** Exactly k operands. */
  function ParseExact(d: Dialect, ts: seq<Token>, k: nat, n: nat): (r: Parsed<seq<Expression>>)
    ensures r.Parsed? ==> |r.rest| <= |ts| && |r.value| == k
    decreases n, 1, k
  {
    if k == 0 then Parsed([], ts)
    else if StartsWith(ts, RParen) then Failed
    else
      var first := ParseExpression(d, ts, n);
      var next := if k == 1 then first else Expect(first, Comma);
      if next.Failed? then Failed
      else
        var others := ParseExact(d, next.rest, k - 1, n);
        if others.Failed? then Failed else Parsed([next.value] + others.value, others.rest)
  }

  /** Operands up to a closing parenthesis. */
  function ParseArguments(d: Dialect, ts: seq<Token>, n: nat): (r: Parsed<seq<Expression>>)
    ensures r.Parsed? ==> |r.rest| <= |ts|
    decreases n, 1, |ts|
  {
    if StartsWith(ts, RParen) then Parsed([], ts)
    else
      var first := ParseExpression(d, ts, n);
      if first.Failed? then Failed
      else if StartsWith(first.rest, RParen) then Parsed([first.value], first.rest)
      else
        var next := Expect(first, Comma);
        if next.Failed? then Failed
        else
          var others := ParseArguments(d, next.rest, n);
          if others.Failed? then Failed else Parsed([next.value] + others.value, others.rest)
  }

  // ----- names -----

  predicate IsVariable(d: Dialect, w: string) { KindOf(d, w) == Plain && w !in d.builtins && w !in d.instructions }

  function ExpectName(d: Dialect, ts: seq<Token>): (r: Parsed<string>)
    ensures r.Parsed? ==> |r.rest| < |ts|
  {
    if ts != [] && ts[0].Word? && IsVariable(d, ts[0].name) then Parsed(ts[0].name, ts[1..]) else Failed
  }

  function ParseTypedName(d: Dialect, ts: seq<Token>, n: nat): (r: Parsed<string>)
    ensures r.Parsed? ==> |r.rest| < |ts|
  {
    if n == 0 then Failed else ExpectName(d, ts)
  }

  /** Names with commas between them. */
  function ParseNames(d: Dialect, ts: seq<Token>, n: nat): (r: Parsed<seq<string>>)
    ensures r.Parsed? ==> |r.rest| < |ts| && r.value != []
    decreases |ts|
  {
    var first := ParseTypedName(d, ts, n);
    if first.Failed? then Failed
    else if StartsWith(first.rest, Comma) then
      var others := ParseNames(d, first.rest[1..], n);
      if others.Failed? then Failed else Parsed([first.value] + others.value, others.rest)
    else Parsed([first.value], first.rest)
  }

  /** Parameters up to a closing parenthesis. */
  function ParseParameters(d: Dialect, ts: seq<Token>, n: nat): (r: Parsed<seq<string>>)
    ensures r.Parsed? ==> |r.rest| <= |ts|
    decreases |ts|
  {
    if StartsWith(ts, RParen) then Parsed([], ts)
    else
      var first := ParseTypedName(d, ts, n);
      if first.Failed? then Failed
      else if StartsWith(first.rest, RParen) then Parsed([first.value], first.rest)
      else
        var next := Expect(first, Comma);
        if next.Failed? then Failed
        else
          var others := ParseParameters(d, next.rest, n);
          if others.Failed? then Failed else Parsed([next.value] + others.value, others.rest)
  }

  /** Result variables up to an opening brace. */
  function ParseReturns(d: Dialect, ts: seq<Token>, n: nat): (r: Parsed<seq<string>>)
    ensures r.Parsed? ==> |r.rest| < |ts| && r.value != []
    decreases |ts|
  {
    var first := ParseTypedName(d, ts, n);
    if first.Failed? then Failed
    else if StartsWith(first.rest, LBrace) then Parsed([first.value], first.rest)
    else
      var next := Expect(first, Comma);
      if next.Failed? then Failed
      else
        var others := ParseReturns(d, next.rest, n);
        if others.Failed? then Failed else Parsed([next.value] + others.value, others.rest)
  }

  /** The left-hand side of an assignment, of which the first part has been read. */
  function ParseTargets(d: Dialect, start: Elementary, ts: seq<Token>, n: nat): (r: Parsed<seq<string>>)
    ensures r.Parsed? ==> |r.rest| <= |ts| && r.value != []
    decreases |ts|
  {
    if !start.Name? || start.name in d.builtins then Failed
    else if !StartsWith(ts, Comma) then Parsed([start.name], ts)
    else
      var next := ParseElementary(d, ts[1..], n);
      if next.Failed? then Failed
      else
        var others := ParseTargets(d, next.value, next.rest, n);
        if others.Failed? then Failed else Parsed([start.name] + others.value, others.rest)
  }

  // ----- statements -----

  function ParseBlock(d: Dialect, ts: seq<Token>, n: nat): (r: Parsed<seq<Statement>>)
    ensures r.Parsed? ==> |r.rest| < |ts|
    decreases n, 0, 0
  {
    if n == 0 || !StartsWith(ts, LBrace) then Failed else Expect(ParseStatements(d, ts[1..], n - 1), RBrace)
  }

  /** Statements up to a closing brace. */
  function ParseStatements(d: Dialect, ts: seq<Token>, n: nat): (r: Parsed<seq<Statement>>)
    ensures r.Parsed? ==> |r.rest| <= |ts|
    decreases n, 1, |ts|
  {
    if StartsWith(ts, RBrace) then Parsed([], ts)
    else
      var first := ParseStatement(d, ts, n);
      if first.Failed? then Failed
      else
        var others := ParseStatements(d, first.rest, n);
        if others.Failed? then Failed else Parsed([first.value] + others.value, others.rest)
  }

  function ParseStatement(d: Dialect, ts: seq<Token>, n: nat): (r: Parsed<Statement>)
    ensures r.Parsed? ==> |r.rest| < |ts|
    decreases n, 0, 0
  {
    if n == 0 || ts == [] then Failed
    else if IsKind(d, ts, Let) then ParseDeclaration(d, ts, n - 1)
    else if IsKind(d, ts, Function) then ParseDefinition(d, ts, n - 1)
    else if IsKind(d, ts, If) then ParseConditional(d, ts[1..], n - 1)
    else if IsKind(d, ts, Switch) then ParseSelection(d, ts[1..], n - 1)
    else if IsKind(d, ts, For) then ParseLoop(d, ts, n - 1)
    else if IsKind(d, ts, Break) then Parsed(Leave, ts[1..])
    else if IsKind(d, ts, Continue) then Parsed(Next, ts[1..])
    else if ts[0] == LBrace then
      var b := ParseBlock(d, ts, n - 1);
      if b.Failed? then Failed else Parsed(Block(b.value), b.rest)
    else ParseSimple(d, ts, n - 1)
  }

  /** A call or an assignment. */
  function ParseSimple(d: Dialect, ts: seq<Token>, n: nat): (r: Parsed<Statement>)
    ensures r.Parsed? ==> |r.rest| < |ts|
    decreases n, 2, 0
  {
    var start := ParseElementary(d, ts, n);
    if start.Failed? then Failed
    else if StartsWith(start.rest, LParen) then
      var e := ParseCall(d, start.value, start.rest, n);
      if e.Failed? then Failed else Parsed(Evaluate(e.value), e.rest)
    else if StartsWith(start.rest, Comma) || StartsWith(start.rest, Assign) then
      var names := Expect(ParseTargets(d, start.value, start.rest, n), Assign);
      if names.Failed? then Failed
      else
        var v := ParseExpression(d, names.rest, n);
        if v.Failed? then Failed else Parsed(Assignment(names.value, v.value), v.rest)
    else Failed
  }

  function ParseDeclaration(d: Dialect, ts: seq<Token>, n: nat): (r: Parsed<Statement>)
    ensures r.Parsed? ==> |r.rest| < |ts|
    decreases n, 0, 0
  {
    if n == 0 || ts == [] then Failed
    else
      var names := ParseNames(d, ts[1..], n - 1);
      if names.Failed? then Failed
      else if StartsWith(names.rest, Assign) then
        var v := ParseExpression(d, names.rest[1..], n - 1);
        if v.Failed? then Failed else Parsed(Declaration(names.value, Some(v.value)), v.rest)
      else Parsed(Declaration(names.value, None), names.rest)
  }

  function ParseDefinition(d: Dialect, ts: seq<Token>, n: nat): (r: Parsed<Statement>)
    ensures r.Parsed? ==> |r.rest| < |ts|
    decreases n, 0, 0
  {
    if n == 0 || ts == [] then Failed
    else
      var name := Expect(ExpectName(d, ts[1..]), LParen);
      if name.Failed? then Failed
      else
        var ps := Expect(ParseParameters(d, name.rest, n - 1), RParen);
        if ps.Failed? then Failed
        else
          var rs := ParseResults(d, ps.rest, n - 1);
          if rs.Failed? then Failed
          else
            var b := ParseBlock(d, rs.rest, n - 1);
            if b.Failed? then Failed else Parsed(Definition(name.value, ps.value, rs.value, b.value), b.rest)
  }

  /** An arrow and result variables, or nothing. */
  function ParseResults(d: Dialect, ts: seq<Token>, n: nat): (r: Parsed<seq<string>>)
    ensures r.Parsed? ==> |r.rest| <= |ts|
  {
    if !StartsWith(ts, Minus) then Parsed([], ts)
    else if !StartsWith(ts[1..], Greater) then Failed
    else ParseReturns(d, ts[2..], n)
  }

  function ParseConditional(d: Dialect, ts: seq<Token>, n: nat): (r: Parsed<Statement>)
    ensures r.Parsed? ==> |r.rest| < |ts|
    decreases n, 2, 0
  {
    var c := ParseExpression(d, ts, n);
    if c.Failed? then Failed
    else
      var b := ParseBlock(d, c.rest, n);
      if b.Failed? then Failed else Parsed(Conditional(c.value, b.value), b.rest)
  }

  function ParseLoop(d: Dialect, ts: seq<Token>, n: nat): (r: Parsed<Statement>)
    ensures r.Parsed? ==> |r.rest| < |ts|
    decreases n, 0, 0
  {
    if n == 0 || ts == [] then Failed
    else
      var pre := ParseBlock(d, ts[1..], n - 1);
      if pre.Failed? then Failed
      else
        var c := ParseExpression(d, pre.rest, n - 1);
        if c.Failed? then Failed
        else
          var post := ParseBlock(d, c.rest, n - 1);
          if post.Failed? then Failed
          else
            var b := ParseBlock(d, post.rest, n - 1);
            if b.Failed? then Failed else Parsed(Loop(pre.value, c.value, post.value, b.value), b.rest)
  }

  // ----- switch -----

  function ParseSelection(d: Dialect, ts: seq<Token>, n: nat): (r: Parsed<Statement>)
    ensures r.Parsed? ==> |r.rest| < |ts|
    decreases n, 2, 0
  {
    var e := ParseExpression(d, ts, n);
    if e.Failed? then Failed
    else
      var cases := ParseCases(d, e.rest, n);
      if cases.Failed? || cases.value == [] || IsKind(d, cases.rest, Default) || IsKind(d, cases.rest, Case) then Failed
      else Parsed(Selection(e.value, cases.value), cases.rest)
  }

  /** Cases, then possibly a default. */
  function ParseCases(d: Dialect, ts: seq<Token>, n: nat): (r: Parsed<seq<SwitchCase>>)
    ensures r.Parsed? ==> |r.rest| <= |ts|
    decreases n, 1, |ts|
  {
    if IsKind(d, ts, Case) then
      var c := ParseCase(d, ts, n);
      if c.Failed? then Failed
      else
        var others := ParseCases(d, c.rest, n);
        if others.Failed? then Failed else Parsed([c.value] + others.value, others.rest)
    else if IsKind(d, ts, Default) then
      var c := ParseCase(d, ts, n);
      if c.Failed? then Failed else Parsed([c.value], c.rest)
    else Parsed([], ts)
  }

  function ParseCase(d: Dialect, ts: seq<Token>, n: nat): (r: Parsed<SwitchCase>)
    ensures r.Parsed? ==> |r.rest| < |ts|
    decreases n, 0, 0
  {
    if n == 0 || ts == [] then Failed
    else if IsKind(d, ts, Default) then
      var b := ParseBlock(d, ts[1..], n - 1);
      if b.Failed? then Failed else Parsed(SwitchCase(None, b.value), b.rest)
    else
      var v := ParseElementary(d, ts[1..], n - 1);
      if v.Failed? || !v.value.Constant? then Failed
      else
        var b := ParseBlock(d, v.rest, n - 1);
        if b.Failed? then Failed else Parsed(SwitchCase(Some(Literal(v.value.isText, v.value.value)), b.value), b.rest)
  }

  /** A whole program: one block and nothing after it. */
  function Parse(d: Dialect, ts: seq<Token>): Option<seq<Statement>> {
    var r := ParseBlock(d, ts, MAX_DEPTH);
    if r.Parsed? && r.rest == [] then Some(r.value) else None
  }
}
