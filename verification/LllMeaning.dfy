/** What LLL trees mean, without jumps. */
module LllMeaning {
  import opened Words
  import opened Instructions
  import opened Items
  import opened Machine
  import opened Segments
  import opened Lll

  /** Evaluation leaves values (bottom first) and a world, or halts the program, or goes wrong
      (including: does not finish within the given number of loop iterations). */
  datatype Result = Ends(values: seq<Value>, world: World) | Stops(outcome: Outcome) | Wrong

  function DepositOf(e: Expr): int { if Translate(e).Some? then Translate(e).value.deposit else 0 }

  /** An instruction applied to exactly its operands, the top one last. */
  ghost function Apply(env: Env, op: Opcode, values: seq<Value>, w: World): Result {
    if |values| != InfoOf(op).args then Wrong
    else
      match StepItem(env, Operation(op), State(values, w))
      case Next(s) => Ends(s.stack, s.world)
      case Halt(o) => Stops(o)
      case Jump(_, _) => Wrong
      case Stuck => Wrong
  }

  /** A single number, as conditions need it. */
  predicate IsNumber(values: seq<Value>) { |values| == 1 && values[0].Num? }

  predicate Holds(values: seq<Value>)
    requires IsNumber(values)
  {
    values[0].word != 0
  }

  function Keep(r: Result, n: int): Result {
    if r.Ends? && 0 <= n <= |r.values| then Ends(r.values[..n], r.world) else if r.Ends? then Wrong else r
  }

  ghost function Eval(env: Env, e: Expr, w: World, fuel: nat): Result
    decreases fuel, e, 1
  {
    match e
    case Literal(v) => Ends([Num(v)], w)
    case Call(op, args) =>
      var r := EvalArguments(env, args, w, fuel);
      if r.Ends? then Apply(env, op, r.values, r.world) else r
    case Arith(op, args) =>
      var r := EvalArguments(env, args, w, fuel);
      if r.Ends? then Fold(env, op, r.values, r.world) else r
    case Binary(op, negate, a, b) =>
      var y := Eval(env, b, w, fuel);
      if !y.Ends? then y
      else
        var x := Eval(env, a, y.world, fuel);
        if !x.Ends? then x
        else
          var r := Apply(env, op, y.values + x.values, x.world);
          if negate && r.Ends? then Apply(env, ISZERO, r.values, r.world) else r
    case Unary(op, a) =>
      var x := Eval(env, a, w, fuel);
      if x.Ends? then Apply(env, op, x.values, x.world) else x
    case Sequence(args) => EvalSequence(env, args, w, fuel)
    case If(c, yes, no) =>
      var least := Min(DepositOf(yes), DepositOf(no));
      var x := Eval(env, c, w, fuel);
      if !x.Ends? then x
      else if !IsNumber(x.values) then Wrong
      else if Holds(x.values) then Keep(Eval(env, yes, x.world, fuel), least)
      else Keep(Eval(env, no, x.world, fuel), least)
    case When(whenTrue, c, body) =>
      var x := Eval(env, c, w, fuel);
      if !x.Ends? then x
      else if !IsNumber(x.values) then Wrong
      else if Holds(x.values) == whenTrue then Keep(Eval(env, body, x.world, fuel), 0)
      else Ends([], x.world)
    case Loop(_, _, _) => EvalLoop(env, e, w, fuel)
    case For(init, _, _, _) =>
      var i := Keep(Eval(env, init, w, fuel), 0);
      if i.Ends? then EvalFor(env, e, i.world, fuel) else i
    case Switch(cases, fallback) =>
      var r := EvalCases(env, cases, w, fuel);
      if r.Chosen? then r.result else if fallback.Nil? then Ends([], r.world) else Eval(env, fallback.head, r.world, fuel)
    case ShortCircuit(isOr, args) => EvalChain(env, isOr, args, w, fuel)
  }

  /** The last operand is evaluated first. */
  ghost function EvalArguments(env: Env, es: Exprs, w: World, fuel: nat): Result
    decreases fuel, es
  {
    if es.Nil? then Ends([], w)
    else
      var r := EvalArguments(env, es.tail, w, fuel);
      if !r.Ends? then r
      else
        var x := Keep(Eval(env, es.head, r.world, fuel), 1);
        if x.Ends? then Ends(r.values + x.values, x.world) else x
  }

  /** a0 op a1 op a2 ..., from the left; the values lie with a0 on top. */
  ghost function Fold(env: Env, op: Opcode, values: seq<Value>, w: World): Result
    decreases |values|
  {
    var n := |values|;
    if n == 1 then Ends(values, w)
    else if n == 0 then Wrong
    else
      var r := Apply(env, op, values[n - 2..], w);
      if r.Ends? && |r.values| == 1 then Fold(env, op, values[..n - 2] + r.values, r.world) else if r.Ends? then Wrong else r
  }

  ghost function EvalSequence(env: Env, es: Exprs, w: World, fuel: nat): Result
    decreases fuel, es
  {
    if es.Nil? then Ends([], w)
    else if es.tail.Nil? then Eval(env, es.head, w, fuel)
    else
      var r := Keep(Eval(env, es.head, w, fuel), 0);
      if r.Ends? then EvalSequence(env, es.tail, r.world, fuel) else r
  }

  ghost function EvalLoop(env: Env, e: Expr, w: World, fuel: nat): Result
    requires e.Loop?
    decreases fuel, e, 0
  {
    var x := Eval(env, e.condition, w, fuel);
    if !x.Ends? then x
    else if !IsNumber(x.values) then Wrong
    else if Holds(x.values) != e.whileTrue then Ends([], x.world)
    else if fuel == 0 then Wrong
    else
      var b := Keep(Eval(env, e.body, x.world, fuel - 1), 0);
      if b.Ends? then EvalLoop(env, e, b.world, fuel - 1) else b
  }

  ghost function EvalFor(env: Env, e: Expr, w: World, fuel: nat): Result
    requires e.For?
    decreases fuel, e, 0
  {
    var x := Eval(env, e.condition, w, fuel);
    if !x.Ends? then x
    else if !IsNumber(x.values) then Wrong
    else if !Holds(x.values) then Ends([], x.world)
    else if fuel == 0 then Wrong
    else
      var b := Keep(Eval(env, e.body, x.world, fuel - 1), 0);
      if !b.Ends? then b
      else
        var p := Keep(Eval(env, e.post, b.world, fuel - 1), 0);
        if p.Ends? then EvalFor(env, e, p.world, fuel - 1) else p
  }

  datatype Choice = Chosen(result: Result) | Unmatched(world: World)

  /** The body of the first case whose condition holds. */
  ghost function EvalCases(env: Env, cases: Cases, w: World, fuel: nat): Choice
    decreases fuel, cases
  {
    if cases.NoCase? then Unmatched(w)
    else
      var x := Eval(env, cases.condition, w, fuel);
      if !x.Ends? then Chosen(x)
      else if !IsNumber(x.values) then Chosen(Wrong)
      else if Holds(x.values) then Chosen(Eval(env, cases.body, x.world, fuel))
      else EvalCases(env, cases.rest, x.world, fuel)
  }

  /** && stops at the first operand that is zero, || at the first that is not; the last operand is the value. */
  ghost function EvalChain(env: Env, isOr: bool, es: Exprs, w: World, fuel: nat): Result
    decreases fuel, es
  {
    if es.Nil? then Wrong
    else if es.tail.Nil? then Eval(env, es.head, w, fuel)
    else
      var x := Eval(env, es.head, w, fuel);
      if !x.Ends? then x
      else if !IsNumber(x.values) then Wrong
      else if Holds(x.values) == isOr then Ends([Num(if isOr then 1 else 0)], x.world)
      else EvalChain(env, isOr, es.tail, x.world, fuel)
  }
}
