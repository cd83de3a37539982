/** The evaluator's expression part (`eval_single_expr`, `eval_expr_to_expr`, `relop`, `resolve_match`, `alloc` of
    `rholang/src/reduce.rs`) on ground values, without its cost charges. */
module Evaluation {
  import opened Orders
  import opened Bytes
  import opened Ast
  import opened ParOps
  import opened Contexts

  datatype EvalError =
    | UnboundVariable
    | PatternVariable
    | NotSingle
    | ExpectedBool
    | OperatorExpected
    | OperatorNotDefined
    | UnexpectedCompare
    | ByZero
    | Overflow
    | NotCovered

  datatype Outcome = Value(e: Expr) | Fails(error: EvalError) {
    predicate IsFailure() { Fails? }
    function PropagateFailure(): Outcome requires Fails? { this }
    function Extract(): Expr requires Value? { e }
  }

  function SingleExpr(p: Par): Option<Expr> {
    if |p.exprs| == 1 && IsNil(p.(exprs := [])) then Some(p.exprs[0]) else None
  }

  predicate IsGround(e: Expr) {
    e.GBool? || e.GInt? || e.GBigInt? || e.GString? || e.GUri? || e.GByteArray?
  }

  function Abs(a: int): nat { if a < 0 then -a else a }

  /** Division toward zero, as Rust's `/`; the remainder takes the sign of the dividend. */
  function Quotient(a: int, b: int): int
    requires b != 0
  {
    var q := Abs(a) / Abs(b);
    if (a < 0) == (b < 0) then q else -q
  }

  function Remainder(a: int, b: int): int
    requires b != 0
  {
    var r := Abs(a) % Abs(b);
    if a < 0 then -r else r
  }

  /** Dividend, divisor, quotient and remainder fit together. */
  lemma DivisionLaw(a: int, b: int)
    requires b != 0
    ensures a == b * Quotient(a, b) + Remainder(a, b)
    ensures Abs(Remainder(a, b)) < Abs(b) && (a >= 0 ==> Remainder(a, b) >= 0) && (a <= 0 ==> Remainder(a, b) <= 0)
  {
    SignedParts(a, b, Abs(a) / Abs(b), Abs(a) % Abs(b));
  }

  lemma SignedParts(a: int, b: int, q: int, r: int)
    requires Abs(a) == Abs(b) * q + r
    ensures a == b * (if (a < 0) == (b < 0) then q else -q) + (if a < 0 then -r else r)
  {
    Signs(b, q);
  }

  lemma Signs(y: int, q: int)
    ensures y * -q == -(y * q) && -y * q == -(y * q) && -y * -q == y * q
  {
  }

  function Arithmetic(op: BinaryOp, a: int, b: int): Option<int> {
    match op
    case Mult => Some(a * b)
    case Plus => Some(a + b)
    case Minus => Some(a - b)
    case Div => if b == 0 then None else Some(Quotient(a, b))
    case Mod => if b == 0 then None else Some(Remainder(a, b))
    case _ => None
  }

  predicate IsArithmetic(op: BinaryOp) {
    op == Mult || op == Plus || op == Minus || op == Div || op == Mod
  }

  /** 64-bit integers wrap, except that the one quotient out of range fails. */
  function ApplyArithmetic(op: BinaryOp, a: Expr, b: Expr): Outcome
    requires IsArithmetic(op)
  {
    match (a, b)
    case (GInt(x), GInt(y)) =>
      if (op == Div || op == Mod) && y == 0 then Fails(ByZero)
      else if (op == Div || op == Mod) && x == -I64_LIMIT && y == -1 then Fails(Overflow)
      else Value(GInt(Wrap(Arithmetic(op, x, y).value)))
    case (GBigInt(x), GBigInt(y)) =>
      if (op == Div || op == Mod) && y == 0 then Fails(ByZero) else Value(GBigInt(Arithmetic(op, x, y).value))
    case (GInt(_), _) => Fails(OperatorExpected)
    case (GBigInt(_), _) => Fails(OperatorExpected)
    case (_, _) => Fails(OperatorNotDefined)
  }

  predicate IsComparison(op: BinaryOp) {
    op == Lt || op == Lte || op == Gt || op == Gte
  }

  function Holds(op: BinaryOp, c: Ordering): bool
    requires IsComparison(op)
  {
    match op
    case Lt => c == Less
    case Lte => c != Greater
    case Gt => c == Greater
    case Gte => c != Less
  }

  function BoolCode(b: bool): int { if b then 1 else 0 }

  function ApplyComparison(op: BinaryOp, a: Expr, b: Expr): Outcome
    requires IsComparison(op)
  {
    match (a, b)
    case (GBool(x), GBool(y)) => Value(GBool(Holds(op, CompareInts(BoolCode(x), BoolCode(y)))))
    case (GInt(x), GInt(y)) => Value(GBool(Holds(op, CompareInts(x, y))))
    case (GBigInt(x), GBigInt(y)) => Value(GBool(Holds(op, CompareInts(x, y))))
    case (GString(x), GString(y)) => Value(GBool(Holds(op, CompareLex(x, y, CharCode))))
    case _ => Fails(UnexpectedCompare)
  }

  /** The four comparisons of two numbers or two texts are those of one order. */
  lemma ComparisonLaw(x: int, y: int, s: string, t: string)
    ensures ApplyComparison(Lt, GInt(x), GInt(y)) == Value(GBool(x < y)) == ApplyComparison(Gt, GInt(y), GInt(x))
    ensures ApplyComparison(Lte, GBigInt(x), GBigInt(y)) == Value(GBool(x <= y)) == ApplyComparison(Gte, GBigInt(y), GBigInt(x))
    ensures ApplyComparison(Lt, GString(s), GString(t)) == Value(GBool(LexBelow(s, t, CharCode)))
    ensures ApplyComparison(Gte, GString(s), GString(t)) == Value(GBool(!LexBelow(s, t, CharCode)))
  {
    LexLessIff(s, t, CharCode);
  }

  /** Sums, differences and products are exact on unbounded integers, and on 64-bit ones wherever the result fits. */
  lemma ArithmeticLaw(x: int, y: int)
    ensures ApplyArithmetic(Plus, GBigInt(x), GBigInt(y)) == Value(GBigInt(x + y))
    ensures ApplyArithmetic(Minus, GBigInt(x), GBigInt(y)) == Value(GBigInt(x - y))
    ensures ApplyArithmetic(Mult, GBigInt(x), GBigInt(y)) == Value(GBigInt(x * y))
    ensures -I64_LIMIT <= x + y < I64_LIMIT <==> ApplyArithmetic(Plus, GInt(x), GInt(y)) == Value(GInt(x + y))
    ensures -I64_LIMIT <= x - y < I64_LIMIT <==> ApplyArithmetic(Minus, GInt(x), GInt(y)) == Value(GInt(x - y))
    ensures -I64_LIMIT <= x * y < I64_LIMIT <==> ApplyArithmetic(Mult, GInt(x), GInt(y)) == Value(GInt(x * y))
  {
    hide Wrap;
    WrapFits(x + y);
    WrapFits(x - y);
    WrapFits(x * y);
  }

  function ApplyAppend(a: Expr, b: Expr): Outcome {
    match (a, b)
    case (GString(x), GString(y)) => Value(GString(x + y))
    case (GByteArray(x), GByteArray(y)) => Value(GByteArray(x + y))
    case (GString(_), _) => Fails(OperatorExpected)
    case (_, _) => Fails(OperatorNotDefined)
  }

  predicate IsLogical(op: BinaryOp) {
    op == And || op == Or || op == ShortAnd || op == ShortOr
  }

  /** An operator on the values of both operands. */
  function Apply(op: BinaryOp, a: Expr, b: Expr): Outcome {
    if IsArithmetic(op) then ApplyArithmetic(op, a, b)
    else if IsComparison(op) then ApplyComparison(op, a, b)
    else if op == Eq then Value(GBool(a == b))
    else if op == Neq then Value(GBool(a != b))
    else if op == PlusPlus then ApplyAppend(a, b)
    else if op == And || op == ShortAnd then
      if a.GBool? && b.GBool? then Value(GBool(a.b && b.b)) else Fails(ExpectedBool)
    else if op == Or || op == ShortOr then
      if a.GBool? && b.GBool? then Value(GBool(a.b || b.b)) else Fails(ExpectedBool)
    else Fails(NotCovered)
  }

  /** The operators that also take operands other than single expressions. */
  predicate ComparesTerms(op: BinaryOp) {
    op == Eq || op == Neq || op == Matches
  }

  /** What the left operand of a logical operator decides alone: a failure, or the answer of a short circuit. */
  function Decided(op: BinaryOp, a: Expr): Option<Outcome> {
    if !IsLogical(op) then None
    else if !a.GBool? then Some(Fails(ExpectedBool))
    else if op == ShortAnd && !a.b then Some(Value(GBool(false)))
    else if op == ShortOr && a.b then Some(Value(GBool(true)))
    else None
  }

  /** What a logical operator answers on two booleans, and when its left operand alone decides. */
  lemma LogicLaw(x: bool, y: bool)
    ensures Decided(ShortAnd, GBool(x)) == if x then None else Some(Apply(And, GBool(x), GBool(y)))
    ensures Decided(ShortOr, GBool(x)) == if x then Some(Apply(Or, GBool(x), GBool(y))) else None
    ensures Decided(And, GBool(x)) == Decided(Or, GBool(x)) == None
    ensures Apply(And, GBool(x), GBool(y)) == Apply(ShortAnd, GBool(x), GBool(y)) == Value(GBool(x && y))
    ensures Apply(Or, GBool(x), GBool(y)) == Apply(ShortOr, GBool(x), GBool(y)) == Value(GBool(x || y))
  {
  }

  function Negated(a: Expr): Outcome {
    match a
    case GInt(x) => Value(GInt(Wrap(-x)))
    case GBigInt(x) => Value(GBigInt(-x))
    case _ => Fails(OperatorNotDefined)
  }

  function Complement(a: Expr): Outcome {
    if a.GBool? then Value(GBool(!a.b)) else Fails(ExpectedBool)
  }

  /** A value in the environment: one ground expression evaluates to itself. Other terms are not covered. */
  function Held(p: Par): Outcome {
    match SingleExpr(p)
    case None => Fails(NotCovered)
    case Some(e) => if IsGround(e) then Value(e) else Fails(NotCovered)
  }

  function EvalVar(v: Var, env: Env<Par>): Outcome {
    match v
    case BoundVar(k) =>
      (match env.Get(k)
       case None => Fails(UnboundVariable)
       case Some(p) => Held(p))
    case _ => Fails(PatternVariable)
  }

  function EvalSingle(p: Par, env: Env<Par>): Outcome
    decreases p, 1
  {
    match SingleExpr(p)
    case None => Fails(NotSingle)
    case Some(e) => EvalExpr(p.exprs[0], env)
  }

  function EvalExpr(e: Expr, env: Env<Par>): Outcome
    decreases e, 0
  {
    if IsGround(e) then Value(e)
    else
      match e
      case ENot(p) =>
        var a :- EvalSingle(p, env);
        Complement(a)
      case ENeg(p) =>
        var a :- EvalSingle(p, env);
        Negated(a)
      case EBinary(op, l, r) =>
        if ComparesTerms(op) && (SingleExpr(l).None? || SingleExpr(r).None?) then Fails(NotCovered)
        else
          var a :- EvalSingle(l, env);
          (match Decided(op, a)
           case Some(answer) => answer
           case None =>
             var b :- EvalSingle(r, env);
             Apply(op, a, b))
      case EVar(v) => EvalVar(v, env)
      case _ => Fails(NotCovered)
  }

  /** The body of the first case whose pattern is the value of the target. */
  function Selected(target: Expr, cases: seq<MatchCase>): Option<Par> {
    if cases == [] then None
    else if cases[0].pattern == FromExpr(target) then Some(cases[0].source)
    else Selected(target, cases[1..])
  }

  /** The loop of `resolve_match` over cases with ground patterns, which match what they equal. */
  method SelectCase(target: Expr, cases: seq<MatchCase>) returns (r: Option<Par>)
    ensures r == Selected(target, cases)
  {
    for i := 0 to |cases|
      invariant Selected(target, cases[i..]) == Selected(target, cases)
    {
      assert cases[i..][0] == cases[i] && cases[i..][1..] == cases[i + 1..];
      if cases[i].pattern == FromExpr(target) {
        return Some(cases[i].source);
      }
    }
    return None;
  }

  // ----- allocation for `new`

  function Injected(uri: string, injections: seq<Injection>): Option<Par> {
    if injections == [] then None
    else if injections[0].key == uri then Some(injections[0].value)
    else Injected(uri, injections[1..])
  }

  /** The value of a uri: from the system, else from the injections. */
  function UrnValue(uri: string, injections: seq<Injection>, urns: map<string, Par>): Option<Par> {
    if uri in urns then Some(urns[uri]) else Injected(uri, injections)
  }

  function UrnValues(uris: seq<string>, injections: seq<Injection>, urns: map<string, Par>): Option<seq<Par>> {
    if uris == [] then Some([])
    else
      match UrnValues(uris[..|uris| - 1], injections, urns)
      case None => None
      case Some(ps) =>
        match UrnValue(uris[|uris| - 1], injections, urns)
        case None => None
        case Some(p) => Some(ps + [p])
  }

  /** How many names of a `new` are made up. */
  function FreshCount(n: New): nat {
    if n.bindCount > |n.uri| then n.bindCount - |n.uri| else 0
  }

  function Allocated(n: New, values: seq<Par>, made: seq<Par>, urns: map<string, Par>): Option<Env<Par>> {
    match UrnValues(n.uri, n.injections, urns)
    case None => None
    case Some(ps) => Some(EnvOf(values + made + ps))
  }

  lemma EnvOfPut<A>(values: seq<A>, a: A)
    ensures EnvOf(values + [a]) == EnvOf(values).Put(a)
  {
    assert (values + [a])[..|values|] == values;
  }

  lemma {:induction false} NoneBefore(uris: seq<string>, k: nat, injections: seq<Injection>, urns: map<string, Par>)
    requires k <= |uris| && UrnValues(uris[..k], injections, urns).None?
    ensures UrnValues(uris, injections, urns).None?
    decreases |uris| - k
  {
    if k == |uris| {
      assert uris[..k] == uris;
    } else {
      assert uris[..k + 1][..k] == uris[..k];
      NoneBefore(uris, k + 1, injections, urns);
    }
  }

  method PutAll(values: seq<Par>, made: seq<Par>) returns (env: Env<Par>)
    ensures env == EnvOf(values + made)
  {
    env := EnvOf(values);
    assert values + made[..0] == values;
    for i := 0 to |made|
      invariant env == EnvOf(values + made[..i])
    {
      hide EnvOf;
      EnvOfPut(values + made[..i], made[i]);
      assert values + made[..i + 1] == values + made[..i] + [made[i]];
      env := env.Put(made[i]);
    }
    assert made[..|made|] == made;
  }

  /** `alloc`: first a made-up name for every declaration without uri, then the values of the uris in their order. */
  method Alloc(n: New, values: seq<Par>, made: seq<Par>, urns: map<string, Par>) returns (r: Option<Env<Par>>)
    requires |made| == FreshCount(n)
    ensures r == Allocated(n, values, made, urns)
  {
    hide EnvOf, UrnValue;
    var env := PutAll(values, made);
    ghost var ps: seq<Par> := [];
    assert values + made + ps == values + made;
    for i := 0 to |n.uri|
      invariant UrnValues(n.uri[..i], n.injections, urns) == Some(ps) && env == EnvOf(values + made + ps)
    {
      var value := UrnValue(n.uri[i], n.injections, urns);
      NextUrn(n.uri, i, n.injections, urns);
      hide UrnValues;
      if value.None? { return None; }
      EnvOfPut(values + made + ps, value.value);
      assert values + made + (ps + [value.value]) == values + made + ps + [value.value];
      env := env.Put(value.value);
      ps := ps + [value.value];
    }
    assert n.uri[..|n.uri|] == n.uri;
    return Some(env);
  }

  lemma NextUrn(uris: seq<string>, i: nat, injections: seq<Injection>, urns: map<string, Par>)
    requires i < |uris| && UrnValues(uris[..i], injections, urns).Some?
    ensures UrnValue(uris[i], injections, urns).None? ==> UrnValues(uris, injections, urns).None?
    ensures UrnValue(uris[i], injections, urns).Some? ==>
              UrnValues(uris[..i + 1], injections, urns)
              == Some(UrnValues(uris[..i], injections, urns).value + [UrnValue(uris[i], injections, urns).value])
  {
    hide UrnValue;
    assert uris[..i + 1][..i] == uris[..i];
    if UrnValue(uris[i], injections, urns).None? { NoneBefore(uris, i + 1, injections, urns); }
  }
}
