/** The parser as it works: an index into the tokens and a depth counter, moved step by step. */
module YulAsmParser {
  import opened Instructions
  import opened Items
  import opened Yul
  import opened YulScanner
  import opened YulParser
  import YulResults

  /** What a parsing function gives, after values that have been read before. */
  function After<T>(values: seq<T>, p: Parsed<seq<T>>): Parsed<seq<T>> {
    if p.Failed? then Failed else Parsed(values + p.value, p.rest)
  }

  lemma {:induction false} AfterNothing<T>(p: Parsed<seq<T>>)
    ensures After([], p) == p
  {
    if p.Parsed? { assert [] + p.value == p.value; }
  }

  lemma {:induction false} AfterOne<T>(values: seq<T>, x: T, p: Parsed<seq<T>>)
    ensures After(values, After([x], p)) == After(values + [x], p)
  {
    if p.Parsed? { assert values + ([x] + p.value) == values + [x] + p.value; }
  }

  lemma {:induction false} AfterAll<T>(values: seq<T>, rest: seq<Token>)
    ensures After(values, Parsed([], rest)) == Parsed(values, rest)
  {
    assert values + [] == values;
  }

  lemma {:induction false} AfterLast<T>(values: seq<T>, x: T, rest: seq<Token>)
    ensures After(values, Parsed([x], rest)) == Parsed(values + [x], rest)
  {
  }

  /** The result of a method, compared with the function it computes. */
  ghost predicate Agrees<T>(r: Option<T>, p: Parsed<T>, rest: seq<Token>) {
    if r.None? then p.Failed? else p == Parsed(r.value, rest)
  }

  class Parser {
    const dialect: Dialect
    const tokens: seq<Token>
    var position: nat
    var recursionDepth: nat

    ghost predicate Valid()
      reads this
    {
      position <= |tokens| && recursionDepth <= MAX_DEPTH
    }

    ghost function Rest(): seq<Token>
      reads this
      requires Valid()
    {
      tokens[position..]
    }

    ghost function Levels(): nat
      reads this
      requires Valid()
    {
      MAX_DEPTH - recursionDepth
    }

    constructor (dialect: Dialect, tokens: seq<Token>)
      ensures Valid() && this.dialect == dialect && this.tokens == tokens && position == 0 && recursionDepth == 0
    {
      this.dialect, this.tokens, position, recursionDepth := dialect, tokens, 0, 0;
    }

    predicate At(t: Token)
      reads this
    {
      position < |tokens| && tokens[position] == t
    }

    predicate AtKind(kind: WordKind)
      reads this
    {
      position < |tokens| && tokens[position].Word? && KindOf(dialect, tokens[position].name) == kind
    }

    method Advance()
      requires Valid() && position < |tokens|
      modifies this`position
      ensures Valid() && position == old(position) + 1 && Rest() == old(Rest())[1..]
    {
      position := position + 1;
    }

    method ExpectToken(t: Token) returns (ok: bool)
      requires Valid()
      modifies this`position
      ensures Valid() && ok == StartsWith(old(Rest()), t)
      ensures if ok then Rest() == old(Rest())[1..] else position == old(position)
    {
      ok := At(t);
      if ok { Advance(); }
    }

    method ParseElementary() returns (r: Option<Elementary>)
      requires Valid()
      modifies this`position
      ensures Valid() && Agrees(r, YulParser.ParseElementary(dialect, old(Rest()), old(Levels())), Rest())
    {
      hide KindOf, IsNumber;
      if recursionDepth == MAX_DEPTH || position == |tokens| { return None; }
      match tokens[position]
      case Word(w) =>
        if !AtKind(Plain) { return None; }
        if w !in dialect.builtins && w in dialect.instructions {
          r := Some(Opcode_(dialect.instructions[w]));
        } else {
          r := Some(Name(w));
        }
        Advance();
      case Text(v) =>
        r := Some(Constant(true, v));
        Advance();
      case Number(t) =>
        if !IsNumber(t) { return None; }
        r := Some(Constant(false, t));
        Advance();
      case LBrace => r := None;
      case RBrace => r := None;
      case LParen => r := None;
      case RParen => r := None;
      case Comma => r := None;
      case Colon => r := None;
      case Assign => r := None;
      case Minus => r := None;
      case Greater => r := None;
    }

    // ----- expressions -----

    /** One more level; false if there are too many. */
    method Enter() returns (ok: bool)
      requires Valid()
      modifies this`recursionDepth
      ensures Valid() && Rest() == old(Rest()) && ok == (old(Levels()) > 0)
      ensures ok ==> recursionDepth == old(recursionDepth) + 1 && Levels() == old(Levels()) - 1
    {
      ok := recursionDepth < MAX_DEPTH;
      if ok { recursionDepth := recursionDepth + 1; }
    }

    method ParseExpression() returns (r: Option<Expression>)
      requires Valid()
      modifies this
      ensures Valid() && Agrees(r, YulParser.ParseExpression(dialect, old(Rest()), old(Levels())), Rest())
      ensures r.Some? ==> recursionDepth == old(recursionDepth)
      decreases Levels(), 0, 0
    {
      hide InfoOf, IsStackShuffle, YulParser.ParseElementary, YulParser.ParseCall;
      var ok := Enter();
      if !ok { return None; }
      var start := ParseElementary();
      if start.None? { return None; }
      if start.value.Opcode_? && (InfoOf(start.value.op).ret != 1 || IsStackShuffle(start.value.op)) { return None; }
      if At(LParen) {
        r := ParseCall(start.value);
      } else {
        match start.value
        case Opcode_(_) => r := None;
        case Name(w) => r := Some(Identifier(w));
        case Constant(isText, v) => r := Some(Literal(isText, v));
      }
      if r.Some? { recursionDepth := recursionDepth - 1; }
    }

    method ParseCall(start: Elementary) returns (r: Option<Expression>)
      requires Valid()
      modifies this
      ensures Valid() && Agrees(r, YulParser.ParseCall(dialect, start, old(Rest()), old(Levels())), Rest())
      ensures r.Some? ==> recursionDepth == old(recursionDepth)
      decreases Levels(), 0, 0
    {
      hide InfoOf, IsStackShuffle, YulParser.ParseExact, YulParser.ParseArguments;
      var ok := Enter();
      if !ok || start.Constant? { return None; }
      if start.Opcode_? && IsStackShuffle(start.op) { return None; }
      ok := ExpectToken(LParen);
      if !ok { return None; }
      var args;
      if start.Opcode_? {
        args := ParseExact(InfoOf(start.op).args);
      } else {
        args := ParseArguments();
      }
      if args.None? { return None; }
      ok := ExpectToken(RParen);
      if !ok { return None; }
      recursionDepth := recursionDepth - 1;
      r := Some(if start.Opcode_? then Expression.Operation(start.op, args.value) else Call(start.name, args.value));
    }

    method ParseExact(count: nat) returns (r: Option<seq<Expression>>)
      requires Valid()
      modifies this
      ensures Valid() && Agrees(r, YulParser.ParseExact(dialect, old(Rest()), count, old(Levels())), Rest())
      ensures r.Some? ==> recursionDepth == old(recursionDepth)
      decreases Levels(), 1, 0
    {
      hide YulParser.ParseExpression;
      var args, i := [], 0;
      AfterNothing(YulParser.ParseExact(dialect, Rest(), count, Levels()));
      while i < count
        invariant 0 <= i <= count && Valid() && recursionDepth == old(recursionDepth)
        invariant YulParser.ParseExact(dialect, old(Rest()), count, Levels()) ==
                  After(args, YulParser.ParseExact(dialect, Rest(), count - i, Levels()))
      {
        if At(RParen) { return None; }
        var e := ParseExpression();
        if e.None? { return None; }
        if i != count - 1 {
          var ok := ExpectToken(Comma);
          if !ok { return None; }
        }
        AfterOne(args, e.value, YulParser.ParseExact(dialect, Rest(), count - i - 1, Levels()));
        args, i := args + [e.value], i + 1;
      }
      AfterAll(args, Rest());
      r := Some(args);
    }

    method ParseArguments() returns (r: Option<seq<Expression>>)
      requires Valid()
      modifies this
      ensures Valid() && Agrees(r, YulParser.ParseArguments(dialect, old(Rest()), old(Levels())), Rest())
      ensures r.Some? ==> recursionDepth == old(recursionDepth)
      decreases Levels(), 1, 0
    {
      hide YulParser.ParseExpression;
      var args := [];
      AfterNothing(YulParser.ParseArguments(dialect, Rest(), Levels()));
      while !At(RParen)
        invariant Valid() && recursionDepth == old(recursionDepth)
        invariant YulParser.ParseArguments(dialect, old(Rest()), Levels()) ==
                  After(args, YulParser.ParseArguments(dialect, Rest(), Levels()))
        decreases |tokens| - position
      {
        var e := ParseExpression();
        if e.None? { return None; }
        if At(RParen) {
          AfterLast(args, e.value, Rest());
          return Some(args + [e.value]);
        }
        var ok := ExpectToken(Comma);
        if !ok { return None; }
        AfterOne(args, e.value, YulParser.ParseArguments(dialect, Rest(), Levels()));
        args := args + [e.value];
      }
      AfterAll(args, Rest());
      r := Some(args);
    }

    // ----- names -----

    method ExpectName() returns (r: Option<string>)
      requires Valid()
      modifies this`position
      ensures Valid() && Agrees(r, YulParser.ExpectName(dialect, old(Rest())), Rest())
    {
      hide KindOf;
      if position == |tokens| || !tokens[position].Word? || !IsVariable(dialect, tokens[position].name) { return None; }
      r := Some(tokens[position].name);
      Advance();
    }

    method ParseTypedName() returns (r: Option<string>)
      requires Valid()
      modifies this`position
      ensures Valid() && Agrees(r, YulParser.ParseTypedName(dialect, old(Rest()), old(Levels())), Rest())
    {
      hide YulParser.ExpectName;
      if recursionDepth == MAX_DEPTH { return None; }
      r := ExpectName();
    }

    method ParseNames() returns (r: Option<seq<string>>)
      requires Valid()
      modifies this`position
      ensures Valid() && Agrees(r, YulParser.ParseNames(dialect, old(Rest()), old(Levels())), Rest())
    {
      hide YulParser.ParseTypedName;
      var names := [];
      AfterNothing(YulParser.ParseNames(dialect, Rest(), Levels()));
      while true
        invariant Valid()
        invariant YulParser.ParseNames(dialect, old(Rest()), Levels()) ==
                  After(names, YulParser.ParseNames(dialect, Rest(), Levels()))
        decreases |tokens| - position
      {
        var name := ParseTypedName();
        if name.None? { return None; }
        if !At(Comma) {
          AfterLast(names, name.value, Rest());
          return Some(names + [name.value]);
        }
        Advance();
        AfterOne(names, name.value, YulParser.ParseNames(dialect, Rest(), Levels()));
        names := names + [name.value];
      }
    }

    method ParseParameters() returns (r: Option<seq<string>>)
      requires Valid()
      modifies this`position
      ensures Valid() && Agrees(r, YulParser.ParseParameters(dialect, old(Rest()), old(Levels())), Rest())
    {
      hide YulParser.ParseTypedName;
      var names := [];
      AfterNothing(YulParser.ParseParameters(dialect, Rest(), Levels()));
      while !At(RParen)
        invariant Valid()
        invariant YulParser.ParseParameters(dialect, old(Rest()), Levels()) ==
                  After(names, YulParser.ParseParameters(dialect, Rest(), Levels()))
        decreases |tokens| - position
      {
        var name := ParseTypedName();
        if name.None? { return None; }
        if At(RParen) {
          AfterLast(names, name.value, Rest());
          return Some(names + [name.value]);
        }
        var ok := ExpectToken(Comma);
        if !ok { return None; }
        AfterOne(names, name.value, YulParser.ParseParameters(dialect, Rest(), Levels()));
        names := names + [name.value];
      }
      AfterAll(names, Rest());
      r := Some(names);
    }

    method ParseReturns() returns (r: Option<seq<string>>)
      requires Valid()
      modifies this`position
      ensures Valid() && Agrees(r, YulParser.ParseReturns(dialect, old(Rest()), old(Levels())), Rest())
    {
      hide YulParser.ParseTypedName;
      var names := [];
      AfterNothing(YulParser.ParseReturns(dialect, Rest(), Levels()));
      while true
        invariant Valid()
        invariant YulParser.ParseReturns(dialect, old(Rest()), Levels()) ==
                  After(names, YulParser.ParseReturns(dialect, Rest(), Levels()))
        decreases |tokens| - position
      {
        var name := ParseTypedName();
        if name.None? { return None; }
        if At(LBrace) {
          AfterLast(names, name.value, Rest());
          return Some(names + [name.value]);
        }
        var ok := ExpectToken(Comma);
        if !ok { return None; }
        AfterOne(names, name.value, YulParser.ParseReturns(dialect, Rest(), Levels()));
        names := names + [name.value];
      }
    }

    method ParseTargets(first: Elementary) returns (r: Option<seq<string>>)
      requires Valid()
      modifies this`position
      ensures Valid() && Agrees(r, YulParser.ParseTargets(dialect, first, old(Rest()), old(Levels())), Rest())
    {
      hide YulParser.ParseElementary;
      var names, start := [], first;
      AfterNothing(YulParser.ParseTargets(dialect, first, Rest(), Levels()));
      while true
        invariant Valid()
        invariant YulParser.ParseTargets(dialect, first, old(Rest()), Levels()) ==
                  After(names, YulParser.ParseTargets(dialect, start, Rest(), Levels()))
        decreases |tokens| - position
      {
        if !start.Name? || start.name in dialect.builtins { return None; }
        if !At(Comma) {
          AfterLast(names, start.name, Rest());
          return Some(names + [start.name]);
        }
        Advance();
        var next := ParseElementary();
        if next.None? { return None; }
        AfterOne(names, start.name, YulParser.ParseTargets(dialect, next.value, Rest(), Levels()));
        names, start := names + [start.name], next.value;
      }
    }

    // ----- statements -----

    method ParseBlock() returns (r: Option<seq<Statement>>)
      requires Valid()
      modifies this
      ensures Valid() && Agrees(r, YulParser.ParseBlock(dialect, old(Rest()), old(Levels())), Rest())
      ensures r.Some? ==> recursionDepth == old(recursionDepth)
      decreases Levels(), 0, 0
    {
      hide YulParser.ParseStatement;
      var ok := Enter();
      if !ok { return None; }
      ok := ExpectToken(LBrace);
      if !ok { return None; }
      ghost var start, level := Rest(), Levels();
      var statements := [];
      AfterNothing(YulParser.ParseStatements(dialect, Rest(), Levels()));
      while !At(RBrace)
        invariant Valid() && recursionDepth == old(recursionDepth) + 1 && Levels() == level
        invariant YulParser.ParseStatements(dialect, start, level) ==
                  After(statements, YulParser.ParseStatements(dialect, Rest(), Levels()))
        decreases |tokens| - position
      {
        var s := ParseStatement();
        if s.None? { return None; }
        AfterOne(statements, s.value, YulParser.ParseStatements(dialect, Rest(), Levels()));
        statements := statements + [s.value];
      }
      AfterAll(statements, Rest());
      Advance();
      recursionDepth := recursionDepth - 1;
      r := Some(statements);
    }

    method ParseStatement() returns (r: Option<Statement>)
      requires Valid()
      modifies this
      ensures Valid() && Agrees(r, YulParser.ParseStatement(dialect, old(Rest()), old(Levels())), Rest())
      ensures r.Some? ==> recursionDepth == old(recursionDepth)
      decreases Levels(), 0, 0
    {
      hide KindOf, YulParser.ParseBlock, YulParser.ParseDeclaration, YulParser.ParseDefinition;
      hide YulParser.ParseConditional;
      hide YulParser.ParseSelection, YulParser.ParseLoop, YulParser.ParseSimple;
      var ok := Enter();
      if !ok || position == |tokens| { return None; }
      if AtKind(Let) {
        r := ParseDeclaration();
      } else if AtKind(Function) {
        r := ParseDefinition();
      } else if AtKind(If) {
        Advance();
        r := ParseConditional();
      } else if AtKind(Switch) {
        Advance();
        r := ParseSelection();
      } else if AtKind(For) {
        r := ParseLoop();
      } else if AtKind(Break) {
        Advance();
        r := Some(Leave);
      } else if AtKind(Continue) {
        Advance();
        r := Some(Next);
      } else if At(LBrace) {
        var b := ParseBlock();
        r := if b.None? then None else Some(Block(b.value));
      } else {
        r := ParseSimple();
      }
      if r.Some? { recursionDepth := recursionDepth - 1; }
    }

    method ParseSimple() returns (r: Option<Statement>)
      requires Valid()
      modifies this
      ensures Valid() && Agrees(r, YulParser.ParseSimple(dialect, old(Rest()), old(Levels())), Rest())
      ensures r.Some? ==> recursionDepth == old(recursionDepth)
      decreases Levels(), 2, 0
    {
      hide YulParser.ParseElementary, YulParser.ParseCall, YulParser.ParseTargets, YulParser.ParseExpression;
      var start := ParseElementary();
      if start.None? { return None; }
      if At(LParen) {
        var e := ParseCall(start.value);
        return if e.None? then None else Some(Evaluate(e.value));
      }
      if !At(Comma) && !At(Assign) { return None; }
      var names := ParseTargets(start.value);
      if names.None? { return None; }
      var ok := ExpectToken(Assign);
      if !ok { return None; }
      var v := ParseExpression();
      r := if v.None? then None else Some(Assignment(names.value, v.value));
    }

    method ParseDeclaration() returns (r: Option<Statement>)
      requires Valid() && position < |tokens|
      modifies this
      ensures Valid() && Agrees(r, YulParser.ParseDeclaration(dialect, old(Rest()), old(Levels())), Rest())
      ensures r.Some? ==> recursionDepth == old(recursionDepth)
      decreases Levels(), 0, 0
    {
      hide YulParser.ParseNames, YulParser.ParseExpression;
      var ok := Enter();
      if !ok { return None; }
      Advance();
      var names := ParseNames();
      if names.None? { return None; }
      var init: Option<Expression> := None;
      if At(Assign) {
        Advance();
        init := ParseExpression();
        if init.None? { return None; }
      }
      recursionDepth := recursionDepth - 1;
      r := Some(Declaration(names.value, init));
    }

    method ParseResults() returns (r: Option<seq<string>>)
      requires Valid()
      modifies this`position
      ensures Valid() && Agrees(r, YulParser.ParseResults(dialect, old(Rest()), old(Levels())), Rest())
    {
      hide YulParser.ParseReturns;
      if !At(Minus) { return Some([]); }
      Advance();
      var ok := ExpectToken(Greater);
      if !ok { return None; }
      assert Rest() == old(Rest())[2..];
      r := ParseReturns();
    }

    method ParseDefinition() returns (r: Option<Statement>)
      requires Valid() && position < |tokens|
      modifies this
      ensures Valid() && Agrees(r, YulParser.ParseDefinition(dialect, old(Rest()), old(Levels())), Rest())
      ensures r.Some? ==> recursionDepth == old(recursionDepth)
      decreases Levels(), 0, 0
    {
      hide YulParser.ExpectName, YulParser.ParseParameters, YulParser.ParseResults, YulParser.ParseBlock;
      var ok := Enter();
      if !ok { return None; }
      Advance();
      var name := ExpectName();
      if name.None? { return None; }
      ok := ExpectToken(LParen);
      if !ok { return None; }
      var ps := ParseParameters();
      if ps.None? { return None; }
      ok := ExpectToken(RParen);
      if !ok { return None; }
      var rs := ParseResults();
      if rs.None? { return None; }
      var b := ParseBlock();
      if b.None? { return None; }
      recursionDepth := recursionDepth - 1;
      r := Some(Definition(name.value, ps.value, rs.value, b.value));
    }

    method ParseConditional() returns (r: Option<Statement>)
      requires Valid()
      modifies this
      ensures Valid() && Agrees(r, YulParser.ParseConditional(dialect, old(Rest()), old(Levels())), Rest())
      ensures r.Some? ==> recursionDepth == old(recursionDepth)
      decreases Levels(), 2, 0
    {
      hide YulParser.ParseExpression, YulParser.ParseBlock;
      var c := ParseExpression();
      if c.None? { return None; }
      var b := ParseBlock();
      r := if b.None? then None else Some(Conditional(c.value, b.value));
    }

    method ParseLoop() returns (r: Option<Statement>)
      requires Valid() && position < |tokens|
      modifies this
      ensures Valid() && Agrees(r, YulParser.ParseLoop(dialect, old(Rest()), old(Levels())), Rest())
      ensures r.Some? ==> recursionDepth == old(recursionDepth)
      decreases Levels(), 0, 0
    {
      hide YulParser.ParseExpression, YulParser.ParseBlock;
      var ok := Enter();
      if !ok { return None; }
      Advance();
      var pre := ParseBlock();
      if pre.None? { return None; }
      var c := ParseExpression();
      if c.None? { return None; }
      var post := ParseBlock();
      if post.None? { return None; }
      var b := ParseBlock();
      if b.None? { return None; }
      recursionDepth := recursionDepth - 1;
      r := Some(Loop(pre.value, c.value, post.value, b.value));
    }

    // ----- switch -----

    method ParseSelection() returns (r: Option<Statement>)
      requires Valid()
      modifies this
      ensures Valid() && Agrees(r, YulParser.ParseSelection(dialect, old(Rest()), old(Levels())), Rest())
      ensures r.Some? ==> recursionDepth == old(recursionDepth)
      decreases Levels(), 2, 0
    {
      hide KindOf, YulParser.ParseExpression, YulParser.ParseCases;
      var e := ParseExpression();
      if e.None? { return None; }
      var cases := ParseCases();
      if cases.None? { return None; }
      if AtKind(Default) || AtKind(Case) || cases.value == [] { return None; }
      r := Some(Selection(e.value, cases.value));
    }

    method ParseCases() returns (r: Option<seq<SwitchCase>>)
      requires Valid()
      modifies this
      ensures Valid() && Agrees(r, YulParser.ParseCases(dialect, old(Rest()), old(Levels())), Rest())
      ensures r.Some? ==> recursionDepth == old(recursionDepth)
      decreases Levels(), 1, 0
    {
      hide KindOf, YulParser.ParseCase;
      var cases := [];
      AfterNothing(YulParser.ParseCases(dialect, Rest(), Levels()));
      while AtKind(Case)
        invariant Valid() && recursionDepth == old(recursionDepth)
        invariant YulParser.ParseCases(dialect, old(Rest()), Levels()) ==
                  After(cases, YulParser.ParseCases(dialect, Rest(), Levels()))
        decreases |tokens| - position
      {
        var c := ParseCase();
        if c.None? { return None; }
        AfterOne(cases, c.value, YulParser.ParseCases(dialect, Rest(), Levels()));
        cases := cases + [c.value];
      }
      if AtKind(Default) {
        var c := ParseCase();
        if c.None? { return None; }
        AfterLast(cases, c.value, Rest());
        return Some(cases + [c.value]);
      }
      AfterAll(cases, Rest());
      r := Some(cases);
    }

    method ParseCase() returns (r: Option<SwitchCase>)
      requires Valid() && position < |tokens|
      modifies this
      ensures Valid() && Agrees(r, YulParser.ParseCase(dialect, old(Rest()), old(Levels())), Rest())
      ensures r.Some? ==> recursionDepth == old(recursionDepth)
      decreases Levels(), 0, 0
    {
      hide KindOf, YulParser.ParseElementary, YulParser.ParseBlock;
      var ok := Enter();
      if !ok { return None; }
      var label_: Option<Expression> := None;
      if AtKind(Default) {
        Advance();
      } else {
        Advance();
        var v := ParseElementary();
        if v.None? || !v.value.Constant? { return None; }
        label_ := Some(Literal(v.value.isText, v.value.value));
      }
      var b := ParseBlock();
      if b.None? { return None; }
      recursionDepth := recursionDepth - 1;
      r := Some(SwitchCase(label_, b.value));
    }
  }

  /** Scans a text and parses it as one block. */
  method ParseText(dialect: Dialect, text: string) returns (program: Option<seq<Statement>>)
    ensures program == YulResults.Read(dialect, text)
  {
    hide Lex, YulParser.ParseBlock;
    var ts := Tokens(text);
    if ts.None? { return None; }
    var parser := new Parser(dialect, ts.value);
    assert parser.Rest() == ts.value;
    var b := parser.ParseBlock();
    if b.None? || parser.position != |ts.value| { return None; }
    program := b;
  }
}
