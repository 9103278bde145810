/** The algebraic simplification rules: patterns with match groups, the rule list
    in the source's order, and first-match lookup. */
module Rules {
  import opened Words
  import opened Instructions
  import opened Arithmetic
  import opened Items

  type Id = nat

  /** An expression: an item applied to equivalence classes. The sequence number is
      zero except for operations on memory and storage. */
  datatype Expr = Expr(item: Item, arguments: seq<Id>, sequenceNumber: nat)

  // ----- patterns -----

  /** `Any` and `Constant` belong to a match group; the groups are those of A, B, C, X, Y below. */
  datatype Pattern =
    | Any(group: nat)
    | Constant(group: nat)
    | Literal(value: Word)
    | Apply0(op: Opcode)
    | Apply1(op: Opcode, p: Pattern)
    | Apply2(op: Opcode, p: Pattern, q: Pattern)
    | Apply3(op: Opcode, p: Pattern, q: Pattern, r: Pattern)

  const A := Constant(1)
  const B := Constant(2)
  const C := Constant(3)
  const X := Any(4)
  const Y := Any(5)

  /** What a match group was bound to: a class and, for constants, its value. */
  datatype Bound = Bound(id: Id, data: Word)
  type Groups = map<nat, Bound>

  /** The constants a rule's action may compute with. */
  datatype Constants = Constants(a: Word, b: Word, c: Word)

  datatype Rule = Rule(pattern: Pattern, action: Constants -> Pattern, feasible: Constants -> bool)

  function ConstantOf(g: Groups, group: nat): Word { if group in g then g[group].data else 0 }

  function ConstantsOf(g: Groups): Constants {
    Constants(ConstantOf(g, 1), ConstantOf(g, 2), ConstantOf(g, 3))
  }

  predicate MatchesBase(p: Pattern, item: Item) {
    match p
    case Any(_) => true
    case Constant(_) => IsPushWord(item)
    case Literal(w) => item == PushWord(w)
    case Apply0(op) => item == Operation(op)
    case Apply1(op, _) => item == Operation(op)
    case Apply2(op, _, _) => item == Operation(op)
    case Apply3(op, _, _, _) => item == Operation(op)
  }

  function BindGroup(g: Groups, group: nat, id: Id, item: Item): Option<Groups> {
    if group !in g then Some(g[group := Bound(id, if IsPushWord(item) then item.data else 0)])
    else if g[group].id == id then Some(g)
    else None
  }

  /** Matches class `id` against a pattern, extending the match groups. */
  function MatchClass(p: Pattern, id: Id, reps: seq<Expr>, g: Groups): Option<Groups>
    decreases p, 1
  {
    if id >= |reps| || !MatchesBase(p, reps[id].item) then None
    else if p.Any? || p.Constant? then BindGroup(g, p.group, id, reps[id].item)
    else MatchArguments(p, reps[id].arguments, reps, g)
  }

  function MatchArguments(p: Pattern, args: seq<Id>, reps: seq<Expr>, g: Groups): Option<Groups>
    decreases p, 0
  {
    match p
    case Apply1(_, q) =>
      if |args| != 1 then None else MatchClass(q, args[0], reps, g)
    case Apply2(_, q, r) =>
      if |args| != 2 then None
      else
        var g1 := MatchClass(q, args[0], reps, g);
        if g1.None? then None else MatchClass(r, args[1], reps, g1.value)
    case Apply3(_, q, r, s) =>
      if |args| != 3 then None
      else
        var g1 := MatchClass(q, args[0], reps, g);
        if g1.None? then None
        else
          var g2 := MatchClass(r, args[1], reps, g1.value);
          if g2.None? then None else MatchClass(s, args[2], reps, g2.value)
    case _ => Some(g)
  }

  /** Matches an expression that may not have a class yet. */
  function MatchExpression(p: Pattern, e: Expr, reps: seq<Expr>): Option<Groups> {
    if p.Any? || p.Constant? || !MatchesBase(p, e.item) then None
    else MatchArguments(p, e.arguments, reps, map[])
  }

  // ----- meaning -----

  /** The values of instructions that are not arithmetic. */
  type Reader = (Opcode, seq<Word>) -> Word

  const ADDRESS_LIMIT: Word := 0x1_0000_0000_0000_0000_0000_0000_0000_0000_0000_0000

  /** Addresses have 160 bits. */
  ghost predicate ReadsAddresses(read: Reader) {
    read(ADDRESS, []) < ADDRESS_LIMIT && read(CALLER, []) < ADDRESS_LIMIT
    && read(ORIGIN, []) < ADDRESS_LIMIT && read(COINBASE, []) < ADDRESS_LIMIT
  }

  predicate IsBinary(op: Opcode) {
    || (ADD <= op <= SIGNEXTEND && op != ADDMOD && op != MULMOD)
    || (LT <= op <= SAR && op != ISZERO && op != NOT)
  }

  function EvalOp1(read: Reader, op: Opcode, x: Word): Word {
    if op == NOT || op == ISZERO then Arith1(op, x) else read(op, [x])
  }

  function EvalOp2(read: Reader, op: Opcode, x: Word, y: Word): Word {
    if IsBinary(op) then Arith2(op, x, y) else read(op, [x, y])
  }

  function EvalOp3(read: Reader, op: Opcode, x: Word, y: Word, z: Word): Word {
    if op == ADDMOD || op == MULMOD then Arith3(op, x, y, z) else read(op, [x, y, z])
  }

  function EvalOp(read: Reader, op: Opcode, args: seq<Word>): Word {
    if |args| == 1 then EvalOp1(read, op, args[0])
    else if |args| == 2 then EvalOp2(read, op, args[0], args[1])
    else if |args| == 3 then EvalOp3(read, op, args[0], args[1], args[2])
    else read(op, args)
  }

  function EvalPattern(p: Pattern, read: Reader, k: Constants, x: Word, y: Word): Word
    decreases p
  {
    match p
    case Any(g) => if g == 4 then x else y
    case Constant(g) => if g == 1 then k.a else if g == 2 then k.b else k.c
    case Literal(w) => w
    case Apply0(op) => read(op, [])
    case Apply1(op, q) => EvalOp1(read, op, EvalPattern(q, read, k, x, y))
    case Apply2(op, q, r) => EvalOp2(read, op, EvalPattern(q, read, k, x, y), EvalPattern(r, read, k, x, y))
    case Apply3(op, q, r, s) =>
      EvalOp3(read, op, EvalPattern(q, read, k, x, y), EvalPattern(r, read, k, x, y), EvalPattern(s, read, k, x, y))
  }

  /** Instructions without a sequence number: their value depends on operands and environment only. */
  predicate IsPure(op: Opcode) { IsArithmetic(op) || IsEnvironment(op) }

  /** Groups are used at their own type and every operation has the operands it needs. */
  predicate PatternOk(p: Pattern) {
    match p
    case Any(g) => g == 4 || g == 5
    case Constant(g) => 1 <= g <= 3
    case Literal(_) => true
    case Apply0(op) => IsPure(op) && InfoOf(op).args == 0
    case Apply1(op, q) => IsPure(op) && InfoOf(op).args == 1 && PatternOk(q)
    case Apply2(op, q, r) => IsPure(op) && InfoOf(op).args == 2 && PatternOk(q) && PatternOk(r)
    case Apply3(op, q, r, s) => IsPure(op) && InfoOf(op).args == 3 && PatternOk(q) && PatternOk(r) && PatternOk(s)
  }

  /** A rule preserves the value for all operands. */
  ghost predicate Preserves(rule: Rule, read: Reader, k: Constants, x: Word, y: Word) {
    rule.feasible(k) ==>
      EvalPattern(rule.pattern, read, k, x, y) == EvalPattern(rule.action(k), read, k, x, y)
  }

  // ----- the rule list -----

  function To(p: Pattern, q: Pattern): Rule {
    Rule(p, (k: Constants) => q, (k: Constants) => true)
  }

  function Compute(p: Pattern, f: Constants -> Word): Rule {
    Rule(p, (k: Constants) => Literal(f(k)), (k: Constants) => true)
  }

  /** Left shift as the source writes it: shift without bound, keep 256 bits. */
  function ShlWorkaround(x: Word, amount: nat): Word { AndNat(ShiftUp(x, amount), MAX_WORD) }

  function ShrWord(x: Word, amount: nat): Word { ShiftDown(x, amount) }

  function PowInt(x: int, n: nat): int { if n == 0 then 1 else x * PowInt(x, n - 1) }

  function SignedToWord(x: int): Word { if x >= 0 then x % MODULUS else (MODULUS + x) % MODULUS }

  function FoldSignExtend(a: Word, b: Word): Word {
    if a >= 31 then b
    else
      var testBit := a * 8 + 7;
      Pow2Small(testBit);
      var mask: Word := Pow2(testBit) - 1;
      if ShiftDown(b, testBit) % 2 == 1 then Or(b, Not(mask)) else And(b, mask)
  }

  lemma {:induction false} Pow2Small(n: nat)
    requires n < 256
    ensures Pow2(n) < MODULUS
  {
    Pow2At256();
    Pow2Monotone(n + 1, 256);
  }

  /** Part 1: arithmetic on constants. */
  function Fold1(): seq<Rule> {
    [ Compute(Apply2(ADD, A, B), (k: Constants) => (k.a + k.b) % MODULUS),
      Compute(Apply2(MUL, A, B), (k: Constants) => (k.a * k.b) % MODULUS),
      Compute(Apply2(SUB, A, B), (k: Constants) => (k.a - k.b) % MODULUS),
      Compute(Apply2(DIV, A, B), (k: Constants) => if k.b == 0 then 0 else DivNat(k.a, k.b)),
      Compute(Apply2(SDIV, A, B), (k: Constants) => if k.b == 0 then 0 else SignedToWord(TruncatedDiv(Signed(k.a), Signed(k.b)))) ]
  }

  function Fold2(): seq<Rule> {
    [ Compute(Apply2(MOD, A, B), (k: Constants) => if k.b == 0 then 0 else k.a % k.b),
      Compute(Apply2(SMOD, A, B), (k: Constants) => if k.b == 0 then 0 else SignedToWord(TruncatedMod(Signed(k.a), Signed(k.b)))),
      Compute(Apply2(EXP, A, B), (k: Constants) => PowInt(k.a, k.b) % MODULUS),
      Compute(Apply1(NOT, A), (k: Constants) => MAX_WORD - k.a) ]
  }

  function Fold3(): seq<Rule> {
    [ Compute(Apply2(LT, A, B), (k: Constants) => if k.a < k.b then 1 else 0),
      Compute(Apply2(GT, A, B), (k: Constants) => if k.a > k.b then 1 else 0),
      Compute(Apply2(SLT, A, B), (k: Constants) => if Signed(k.a) < Signed(k.b) then 1 else 0),
      Compute(Apply2(SGT, A, B), (k: Constants) => if Signed(k.a) > Signed(k.b) then 1 else 0),
      Compute(Apply2(EQ, A, B), (k: Constants) => if k.a == k.b then 1 else 0),
      Compute(Apply1(ISZERO, A), (k: Constants) => if k.a == 0 then 1 else 0) ]
  }

  function Fold4(): seq<Rule> {
    [ Compute(Apply2(AND, A, B), (k: Constants) => And(k.a, k.b)),
      Compute(Apply2(OR, A, B), (k: Constants) => Or(k.a, k.b)),
      Compute(Apply2(XOR, A, B), (k: Constants) => Xor(k.a, k.b)),
      Compute(Apply2(BYTE, A, B), (k: Constants) => if k.a >= 32 then 0 else And(ShrWord(k.b, 8 * (31 - k.a)), 0xff)) ]
  }

  function Fold5(): seq<Rule> {
    [ Compute(Apply3(ADDMOD, A, B, C), (k: Constants) => if k.c == 0 then 0 else (k.a + k.b) % k.c),
      Compute(Apply3(MULMOD, A, B, C), (k: Constants) => if k.c == 0 then 0 else (k.a * k.b) % k.c),
      UnreachableMulMod() ]
  }

  /** The second MULMOD entry of the source: it forgets the modulus. */
  function UnreachableMulMod(): Rule {
    Compute(Apply3(MULMOD, A, B, C), (k: Constants) => (k.a * k.b) % MODULUS)
  }

  function Fold6(): seq<Rule> {
    [ Compute(Apply2(SIGNEXTEND, A, B), (k: Constants) => FoldSignExtend(k.a, k.b)),
      Compute(Apply2(SHL, A, B), (k: Constants) => if k.a > 255 then 0 else ShlWorkaround(k.b, k.a)),
      Compute(Apply2(SHR, A, B), (k: Constants) => if k.a > 255 then 0 else ShrWord(k.b, k.a)) ]
  }

  /** Part 2: operations with known constants. */
  function Known1(): seq<Rule> {
    [ To(Apply2(ADD, X, Literal(0)), X),
      To(Apply2(ADD, Literal(0), X), X),
      To(Apply2(SUB, X, Literal(0)), X),
      To(Apply2(MUL, X, Literal(0)), Literal(0)),
      To(Apply2(MUL, Literal(0), X), Literal(0)) ]
  }

  function Known2(): seq<Rule> {
    [ To(Apply2(MUL, X, Literal(1)), X),
      To(Apply2(MUL, Literal(1), X), X),
      To(Apply2(MUL, X, Literal(MAX_WORD)), Apply2(SUB, Literal(0), X)),
      To(Apply2(MUL, Literal(MAX_WORD), X), Apply2(SUB, Literal(0), X)) ]
  }

  function Known3(): seq<Rule> {
    [ To(Apply2(DIV, X, Literal(0)), Literal(0)),
      To(Apply2(DIV, Literal(0), X), Literal(0)),
      To(Apply2(DIV, X, Literal(1)), X),
      To(Apply2(SDIV, X, Literal(0)), Literal(0)),
      To(Apply2(SDIV, Literal(0), X), Literal(0)),
      To(Apply2(SDIV, X, Literal(1)), X) ]
  }

  function Known4(): seq<Rule> {
    [ To(Apply2(AND, X, Literal(MAX_WORD)), X),
      To(Apply2(AND, Literal(MAX_WORD), X), X),
      To(Apply2(AND, X, Literal(0)), Literal(0)),
      To(Apply2(AND, Literal(0), X), Literal(0)) ]
  }

  function Known5(): seq<Rule> {
    [ To(Apply2(OR, X, Literal(0)), X),
      To(Apply2(OR, Literal(0), X), X),
      To(Apply2(OR, X, Literal(MAX_WORD)), Literal(MAX_WORD)),
      To(Apply2(OR, Literal(MAX_WORD), X), Literal(MAX_WORD)) ]
  }

  function Known6(): seq<Rule> {
    [ To(Apply2(XOR, X, Literal(0)), X),
      To(Apply2(XOR, Literal(0), X), X),
      To(Apply2(MOD, X, Literal(0)), Literal(0)),
      To(Apply2(MOD, Literal(0), X), Literal(0)),
      To(Apply2(EQ, X, Literal(0)), Apply1(ISZERO, X)),
      To(Apply2(EQ, Literal(0), X), Apply1(ISZERO, X)) ]
  }

  function Known7(): seq<Rule> {
    [ To(Apply2(SHL, Literal(0), X), X),
      To(Apply2(SHR, Literal(0), X), X),
      To(Apply2(SHL, X, Literal(0)), Literal(0)),
      To(Apply2(SHR, X, Literal(0)), Literal(0)) ]
  }

  function Known8(): seq<Rule> {
    [ To(Apply2(GT, X, Literal(0)), Apply1(ISZERO, Apply1(ISZERO, X))),
      To(Apply2(LT, Literal(0), X), Apply1(ISZERO, Apply1(ISZERO, X))),
      To(Apply2(GT, X, Literal(MAX_WORD)), Literal(0)),
      To(Apply2(LT, Literal(MAX_WORD), X), Literal(0)),
      To(Apply2(GT, Literal(0), X), Literal(0)),
      To(Apply2(LT, X, Literal(0)), Literal(0)) ]
  }

  function Known9(): seq<Rule> {
    [ To(Apply2(AND, Apply2(BYTE, X, Y), Literal(0xff)), Apply2(BYTE, X, Y)),
      To(Apply2(BYTE, Literal(31), X), Apply2(AND, X, Literal(0xff))) ]
  }

  /** Part 3: an expression combined with itself. */
  function Self1(): seq<Rule> {
    [ To(Apply2(AND, X, X), X),
      To(Apply2(OR, X, X), X),
      To(Apply2(XOR, X, X), Literal(0)),
      To(Apply2(SUB, X, X), Literal(0)) ]
  }

  function Self2(): seq<Rule> {
    [ To(Apply2(EQ, X, X), Literal(1)),
      To(Apply2(LT, X, X), Literal(0)),
      To(Apply2(SLT, X, X), Literal(0)),
      To(Apply2(GT, X, X), Literal(0)),
      To(Apply2(SGT, X, X), Literal(0)),
      To(Apply2(MOD, X, X), Literal(0)) ]
  }

  /** Part 4: combinations of logical instructions. */
  function Logic1(): seq<Rule> {
    [ To(Apply1(NOT, Apply1(NOT, X)), X),
      To(Apply2(XOR, X, Apply2(XOR, X, Y)), Y),
      To(Apply2(XOR, X, Apply2(XOR, Y, X)), Y),
      To(Apply2(XOR, Apply2(XOR, X, Y), X), Y),
      To(Apply2(XOR, Apply2(XOR, Y, X), X), Y) ]
  }

  function Logic2(): seq<Rule> {
    [ To(Apply2(OR, X, Apply2(AND, X, Y)), X),
      To(Apply2(OR, X, Apply2(AND, Y, X)), X),
      To(Apply2(OR, Apply2(AND, X, Y), X), X),
      To(Apply2(OR, Apply2(AND, Y, X), X), X) ]
  }

  function Logic3(): seq<Rule> {
    [ To(Apply2(AND, X, Apply2(OR, X, Y)), X),
      To(Apply2(AND, X, Apply2(OR, Y, X)), X),
      To(Apply2(AND, Apply2(OR, X, Y), X), X),
      To(Apply2(AND, Apply2(OR, Y, X), X), X) ]
  }

  function Logic4(): seq<Rule> {
    [ To(Apply2(AND, X, Apply1(NOT, X)), Literal(0)),
      To(Apply2(AND, Apply1(NOT, X), X), Literal(0)),
      To(Apply2(OR, X, Apply1(NOT, X)), Literal(MAX_WORD)),
      To(Apply2(OR, Apply1(NOT, X), X), Literal(MAX_WORD)) ]
  }

  /** Part 5: powers of two, oversized shifts, masked addresses. */
  function ModPowerRule(i: nat): Rule
    requires i < 256
  {
    Pow2Small(i);
    To(Apply2(MOD, X, Literal(Pow2(i))), Apply2(AND, X, Literal(Pow2(i) - 1)))
  }

  function ModPowers(): seq<Rule> { seq(256, i requires 0 <= i < 256 => ModPowerRule(i)) }

  function BigShifts(): seq<Rule> {
    [ Rule(Apply2(SHL, A, X), (k: Constants) => Literal(0), (k: Constants) => k.a >= 256),
      Rule(Apply2(SHR, A, X), (k: Constants) => Literal(0), (k: Constants) => k.a >= 256) ]
  }

  function MaskedAddress(op: Opcode): seq<Rule> {
    [ To(Apply2(AND, Apply0(op), Literal(ADDRESS_LIMIT - 1)), Apply0(op)),
      To(Apply2(AND, Literal(ADDRESS_LIMIT - 1), Apply0(op)), Apply0(op)) ]
  }

  /** Part 6: double negation. */
  function DoubleNegation(op: Opcode): Rule {
    To(Apply1(ISZERO, Apply1(ISZERO, Apply2(op, X, Y))), Apply2(op, X, Y))
  }

  function Negations(): seq<Rule> {
    [ DoubleNegation(EQ), DoubleNegation(LT), DoubleNegation(SLT), DoubleNegation(GT), DoubleNegation(SGT),
      To(Apply1(ISZERO, Apply1(ISZERO, Apply1(ISZERO, X))), Apply1(ISZERO, X)),
      To(Apply1(ISZERO, Apply2(XOR, X, Y)), Apply2(EQ, X, Y)) ]
  }

  /** Part 7: associative operations, shifts and masks. `xa` is (X, A) or (A, X). */
  function Associative(op: Opcode, p: Pattern, q: Pattern): seq<Rule> {
    [ Rule(Apply2(op, Apply2(op, p, q), B), (k: Constants) => Apply2(op, X, Literal(Arith2(op, k.a, k.b))), (k: Constants) => true),
      To(Apply2(op, Apply2(op, p, q), Y), Apply2(op, Apply2(op, X, Y), A)),
      Rule(Apply2(op, B, Apply2(op, p, q)), (k: Constants) => Apply2(op, X, Literal(Arith2(op, k.a, k.b))), (k: Constants) => true),
      To(Apply2(op, Y, Apply2(op, p, q)), Apply2(op, Apply2(op, Y, X), A)) ]
  }

  function AssociativeBoth(op: Opcode): seq<Rule> { Associative(op, X, A) + Associative(op, A, X) }

  function CombineShifts(op: Opcode): Rule {
    Rule(Apply2(op, B, Apply2(op, A, X)),
         (k: Constants) => if k.a + k.b >= 256 then Apply2(AND, X, Literal(0)) else Apply2(op, Literal(k.a + k.b), X),
         (k: Constants) => true)
  }

  function ShlThenShr(k: Constants): Pattern
    requires k.a < 256 && k.b < 256
  {
    var mask := ShrWord(ShlWorkaround(MAX_WORD, k.a), k.b);
    if k.a > k.b then Apply2(AND, Apply2(SHL, Literal(k.a - k.b), X), Literal(mask))
    else if k.b > k.a then Apply2(AND, Apply2(SHR, Literal(k.b - k.a), X), Literal(mask))
    else Apply2(AND, X, Literal(mask))
  }

  function ShrThenShl(k: Constants): Pattern
    requires k.a < 256 && k.b < 256
  {
    var mask := ShlWorkaround(ShrWord(MAX_WORD, k.a), k.b);
    if k.a > k.b then Apply2(AND, Apply2(SHR, Literal(k.a - k.b), X), Literal(mask))
    else if k.b > k.a then Apply2(AND, Apply2(SHL, Literal(k.b - k.a), X), Literal(mask))
    else Apply2(AND, X, Literal(mask))
  }

  function ShiftPairs(): seq<Rule> {
    [ CombineShifts(SHL),
      CombineShifts(SHR),
      Rule(Apply2(SHR, B, Apply2(SHL, A, X)),
           (k: Constants) => if k.a < 256 && k.b < 256 then ShlThenShr(k) else X,
           (k: Constants) => k.a < 256 && k.b < 256),
      Rule(Apply2(SHL, B, Apply2(SHR, A, X)),
           (k: Constants) => if k.a < 256 && k.b < 256 then ShrThenShl(k) else X,
           (k: Constants) => k.a < 256 && k.b < 256) ]
  }

  function ShiftConstant(op: Opcode, x: Word, amount: nat): Word {
    if op == SHL then ShlWorkaround(x, amount) else ShrWord(x, amount)
  }

  function ShiftedMask(op: Opcode, p: Pattern, q: Pattern): Rule {
    Rule(Apply2(op, B, Apply2(AND, p, q)),
         (k: Constants) => Apply2(AND, Apply2(op, Literal(k.b), X), Literal(ShiftConstant(op, k.a, k.b))),
         (k: Constants) => k.b < 256)
  }

  function ShiftedMasks(): seq<Rule> {
    [ ShiftedMask(SHL, X, A), ShiftedMask(SHL, A, X), ShiftedMask(SHR, X, A), ShiftedMask(SHR, A, X) ]
  }

  function ShiftProducts(): seq<Rule> {
    [ To(Apply2(MUL, X, Apply2(SHL, Y, Literal(1))), Apply2(SHL, Y, X)),
      To(Apply2(MUL, Apply2(SHL, X, Literal(1)), Y), Apply2(SHL, X, Y)),
      To(Apply2(DIV, X, Apply2(SHL, Y, Literal(1))), Apply2(SHR, Y, X)) ]
  }

  predicate CoversShifted(k: Constants) {
    k.b <= 256 && And(k.a, ShrWord(MAX_WORD, k.b)) == ShrWord(MAX_WORD, k.b)
  }

  function NeedlessMasks(): seq<Rule> {
    [ Rule(Apply2(AND, A, Apply2(SHR, B, X)), (k: Constants) => Apply2(SHR, B, X), (k: Constants) => CoversShifted(k)),
      Rule(Apply2(AND, Apply2(SHR, B, X), A), (k: Constants) => Apply2(SHR, B, X), (k: Constants) => CoversShifted(k)) ]
  }

  /** Part 8: constants moved across subtractions. */
  function Subtractions(): seq<Rule> {
    [ Rule(Apply2(SUB, X, A), (k: Constants) => Apply2(ADD, X, Literal((0 - k.a) % MODULUS)), (k: Constants) => true),
      To(Apply2(SUB, Apply2(ADD, X, A), Y), Apply2(ADD, Apply2(SUB, X, Y), A)),
      To(Apply2(SUB, Apply2(ADD, A, X), Y), Apply2(ADD, Apply2(SUB, X, Y), A)),
      Rule(Apply2(SUB, X, Apply2(ADD, Y, A)),
           (k: Constants) => Apply2(ADD, Apply2(SUB, X, Y), Literal((0 - k.a) % MODULUS)), (k: Constants) => true),
      Rule(Apply2(SUB, X, Apply2(ADD, A, Y)),
           (k: Constants) => Apply2(ADD, Apply2(SUB, X, Y), Literal((0 - k.a) % MODULUS)), (k: Constants) => true) ]
  }

  /** The rules that look like masked results of the account-creating instructions. */
  function MaskedCreations(): seq<Rule> { MaskedAddress(CREATE) + MaskedAddress(CREATE2) }

  function FoldRules(): seq<Rule> { Fold1() + Fold2() + Fold3() + Fold4() + Fold5() + Fold6() }

  function KnownRules(): seq<Rule> {
    Known1() + Known2() + Known3() + Known4() + Known5() + Known6() + Known7() + Known8() + Known9()
  }

  function LogicRules(): seq<Rule> { Self1() + Self2() + Logic1() + Logic2() + Logic3() + Logic4() }

  function MaskRules(): seq<Rule> {
    ModPowers() + BigShifts()
    + MaskedAddress(ADDRESS) + MaskedAddress(CALLER) + MaskedAddress(ORIGIN) + MaskedAddress(COINBASE)
    + MaskedCreations()
  }

  function AssociativeRules(): seq<Rule> {
    AssociativeBoth(ADD) + AssociativeBoth(MUL) + AssociativeBoth(AND) + AssociativeBoth(OR) + AssociativeBoth(XOR)
  }

  function ShiftRules(): seq<Rule> { ShiftPairs() + ShiftedMasks() + ShiftProducts() + NeedlessMasks() }

  function RuleList(): seq<Rule> {
    FoldRules() + KnownRules() + LogicRules() + MaskRules() + Negations() + AssociativeRules() + ShiftRules() + Subtractions()
  }
}
