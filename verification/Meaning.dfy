/** Compiling an expression keeps its meaning: the evaluator, reading indices from an environment, gives the compiled term
    what the source expression means by names. The argument goes through `Reading`, so it holds of any term that reads as
    the source. */
module Meaning {
  import opened Orders
  import opened Ast
  import opened ParOps
  import opened Scope
  import opened ProcAst
  import opened Contexts
  import opened ContextLaws
  import opened Normalizer
  import opened NormalizerScope
  import opened Reading
  import opened NormalizerReads
  import opened Evaluation

  // ----- the source, by names

  /** The value bound last to `x`. */
  function LastValue(names: seq<Ident>, values: seq<Par>, x: Ident): Option<Par>
    requires |names| == |values|
  {
    var n := |names|;
    if n == 0 then None
    else if names[n - 1] == x then Some(values[n - 1])
    else LastValue(names[..n - 1], values[..n - 1], x)
  }

  function SignedDecimal(s: string): int {
    if s != "" && s[0] == '-' then -Decimal(s[1..])
    else if s != "" && s[0] == '+' then Decimal(s[1..])
    else Decimal(s)
  }

  function Inside(raw: string): string {
    if |raw| < 2 then "" else raw[1..|raw| - 1]
  }

  function Literal(g: Ground): Expr {
    match g
    case GroundBool(b) => GBool(b)
    case GroundInt(s) => GInt(SignedDecimal(s))
    case GroundBigInt(s) => GBigInt(SignedDecimal(s))
    case GroundString(s) => GString(Inside(s))
    case GroundUri(s) => GUri(Inside(s))
  }

  /** Literals, variables, `not`, negation and the binary operators. */
  predicate IsExpression(p: Proc) {
    match p
    case PGround(_) => true
    case PVar(_) => true
    case PExprs(q) => IsExpression(q)
    case PNot(q) => IsExpression(q)
    case PNeg(q) => IsExpression(q)
    case PBinary(_, l, r) => IsExpression(l) && IsExpression(r)
    case _ => false
  }

  /** What an expression means where `names` are bound to `values`. */
  function Means(p: Proc, names: seq<Ident>, values: seq<Par>): Outcome
    requires |names| == |values|
  {
    match p
    case PGround(g) => Value(Literal(g))
    case PVar(ProcVarVar(x)) =>
      (match LastValue(names, values, x)
       case Some(v) => Held(v)
       case None => Fails(PatternVariable))
    case PExprs(q) => Means(q, names, values)
    case PNot(q) =>
      var a :- Means(q, names, values);
      Complement(a)
    case PNeg(q) =>
      var a :- Means(q, names, values);
      Negated(a)
    case PBinary(op, l, r) =>
      var a :- Means(l, names, values);
      (match Decided(op, a)
       case Some(answer) => answer
       case None =>
         var b :- Means(r, names, values);
         Apply(op, a, b))
    case _ => Fails(PatternVariable)
  }

  // ----- agreement

  function Idents(names: seq<Bound>): seq<Ident> {
    seq(|names|, i requires 0 <= i < |names| => names[i].x)
  }

  lemma {:induction false} LastValueAt(names: seq<Ident>, values: seq<Par>, x: Ident)
    requires |names| == |values|
    ensures x !in names ==> LastValue(names, values, x) == None
    ensures forall i :: LastAt(names, x, i) ==> LastValue(names, values, x) == Some(values[i])
  {
    var n := |names|;
    if n > 0 {
      assert names == names[..n - 1] + [names[n - 1]];
      if names[n - 1] != x {
        LastValueAt(names[..n - 1], values[..n - 1], x);
        forall i | LastAt(names, x, i) ensures LastValue(names, values, x) == Some(values[i]) {
          assert LastAt(names[..n - 1], x, i);
        }
      }
    }
  }

  lemma VarMeans(x: Ident, ns: Names, values: seq<Par>, v: Var)
    requires ReadsVar(x, ProcSort, ns, v) && |values| == |ns.chain[0]|
    ensures EvalVar(v, EnvOf(values)) == Means(PVar(ProcVarVar(x)), Idents(ns.chain[0]), values)
  {
    hide Held, LastValue, EnvOf;
    var names := Idents(ns.chain[0]);
    LastValueAt(names, values, x);
    assert IsBound(ns.chain[0], x) <==> x in names by {
      if i :| 0 <= i < |names| && names[i] == x { assert ns.chain[0][i].x == x; }
      if i :| 0 <= i < |names| && ns.chain[0][i].x == x { assert names[i] == x; }
    }
    EnvReads(values);
    if v.BoundVar? {
      var i := |values| - 1 - v.index;
      assert LastAt(names, x, i);
      assert EnvOf(values).Get(v.index) == Some(values[i]);
    }
  }

  lemma WildcardMeans(ns: Names, values: seq<Par>)
    requires |values| == |ns.chain[0]|
    ensures EvalVar(Wildcard, EnvOf(values)) == Means(PVar(ProcVarWildcard), Idents(ns.chain[0]), values)
  {
  }

  lemma LiteralMeans(g: Ground, e: Expr)
    requires ReadsGround(g, e)
    ensures e == Literal(g) && IsGround(e)
  {
    if g.GroundString? || g.GroundUri? {
      var s := if g.GroundString? then e.s else e.uri;
      if |g.text| >= 2 { assert s == g.text[1..|g.text| - 1]; }
    }
  }

  lemma OneExpr(par: Par)
    requires MoreExpr(Nil, par)
    ensures SingleExpr(par) == Some(par.exprs[0])
  {
  }

  lemma OperatorMeans(op: SourceOp, l: Proc, r: Proc, names: seq<Ident>, par: Par, values: seq<Par>)
    requires |names| == |values| && SingleExpr(par).Some? && par.exprs[0].EBinary? && par.exprs[0].op == op
    requires SingleExpr(par.exprs[0].left).Some? && SingleExpr(par.exprs[0].right).Some?
    requires EvalSingle(par.exprs[0].left, EnvOf(values)) == Means(l, names, values)
    requires EvalSingle(par.exprs[0].right, EnvOf(values)) == Means(r, names, values)
    ensures EvalSingle(par, EnvOf(values)) == Means(PBinary(op, l, r), names, values)
  {
    hide EnvOf, Apply, Decided, Negated, Complement, Held, LastValue, Literal, EvalVar;
    var e := par.exprs[0];
    assert EvalSingle(par, EnvOf(values)) == EvalExpr(e, EnvOf(values));
  }

  /** A term that reads as an expression evaluates to what the expression means. */
  lemma {:induction false} ReadingKeepsMeaning(p: Proc, ns: Names, par: Par, values: seq<Par>)
    requires IsExpression(p) && Reads(p, ns, Nil, par) && |values| == |ns.chain[0]|
    ensures SingleExpr(par).Some? && EvalSingle(par, EnvOf(values)) == Means(p, Idents(ns.chain[0]), values)
    decreases p
  {
    hide EnvOf, Apply, Decided, Negated, Complement, Held, ReadsForm, ReadsSugar, ReadsEval, ReadsPPar, ReadsSend,
         ReadsCollection, ReadsGround, Literal, ReadsVar, EvalVar, LastValue, ReadsMatches, ReadsNegation,
         ReadsConjunction, ReadsDisjunction, ReadsMethod, SingleExpr;
    match p
    case PExprs(q) => ReadingKeepsMeaning(q, ns, par, values);
    case PGround(g) =>
      OneExpr(par);
      LiteralMeans(g, par.exprs[0]);
    case PVar(v) =>
      OneExpr(par);
      if v.ProcVarVar? { VarMeans(v.x, ns, values, par.exprs[0].v); } else { WildcardMeans(ns, values); }
    case PNot(q) =>
      assert ReadsOperator(p, ns, Nil, par) && ReadsNot(q, ns, Nil, par);
      OneExpr(par);
      ReadingKeepsMeaning(q, ns, par.exprs[0].p, values);
    case PNeg(q) =>
      assert ReadsOperator(p, ns, Nil, par) && ReadsNeg(q, ns, Nil, par);
      OneExpr(par);
      ReadingKeepsMeaning(q, ns, par.exprs[0].p, values);
    case PBinary(op, l, r) =>
      assert ReadsOperator(p, ns, Nil, par) && ReadsBinary(op, l, r, ns, Nil, par);
      OneExpr(par);
      ReadingKeepsMeaning(l, ns, par.exprs[0].left, values);
      ReadingKeepsMeaning(r, ns, par.exprs[0].right, values);
      OperatorMeans(op, l, r, Idents(ns.chain[0]), par, values);
  }

  /** Normalizing an expression keeps its meaning, in every context and whatever the values in scope. */
  lemma CompilingKeepsMeaning(p: Proc, cx: Context, st: State, r: Out, ns: Names, values: seq<Par>)
    requires IsExpression(p) && Ready(cx, st) && Follows(cx, ns) && Listed(r.st.free, ns.free)
    requires NormProc(p, Nil, cx, st) == Ok(r) && |values| == |ns.chain[0]|
    ensures EvalSingle(r.par, EnvOf(values)) == Means(p, Idents(ns.chain[0]), values)
  {
    hide NormProc, Reads, EvalSingle, Means, EnvOf, Follows, Listed, FreeMap.Valid, BoundMap.Valid;
    ProcReads(p, Nil, cx, st, r, ns);
    ReadingKeepsMeaning(p, ns, r.par, values);
  }

  /** A closed expression compiles to a term with its meaning. */
  lemma ProgramKeepsMeaning(p: Proc, env: seq<Injection>, supply: nat)
    requires IsExpression(p) && NormalizeTerm(p, env, supply).Ok?
    ensures EvalSingle(NormalizeTerm(p, env, supply).value, EmptyEnv()) == Means(p, [], [])
  {
    hide NormalizeTerm, Reads, EvalSingle, Means;
    CompiledReads(p, env, supply);
    ReadingKeepsMeaning(p, Names([[]], [], env), NormalizeTerm(p, env, supply).value, []);
    assert Idents([]) == [];
  }

  /** A conditional takes its body when the condition means `true` and the alternative when it means `false`. */
  lemma ConditionDecides(cond: Proc, body: Proc, otherwise: Proc, ns: Names, par: Par, values: seq<Par>, b: bool)
    requires IsExpression(cond) && ReadsIf(cond, body, otherwise, ns, Nil, par) && |values| == |ns.chain[0]|
    requires Means(cond, Idents(ns.chain[0]), values) == Value(GBool(b))
    ensures var m := par.matches[0];
            && EvalSingle(m.target, EnvOf(values)) == Value(GBool(b))
            && Selected(GBool(b), m.cases).Some?
            && Reads(if b then body else otherwise, ns, Nil, Selected(GBool(b), m.cases).value)
  {
    hide Reads, EvalSingle, Means, EnvOf, IsExpression;
    var m := par.matches[0];
    ReadingKeepsMeaning(cond, ns, m.target, values);
    assert m.cases[1..][0] == m.cases[1];
    assert FromExpr(GBool(true)).exprs[0] != FromExpr(GBool(false)).exprs[0];
  }

  /** A well-scoped term never asks the environment for a value it does not hold. */
  lemma {:induction false} ScopedNeverUnbound(p: Par, values: seq<Par>)
    requires WellScoped(|values|, p)
    ensures EvalSingle(p, EnvOf(values)) != Fails(UnboundVariable)
    decreases p, 1
  {
    hide EnvOf;
    if SingleExpr(p).Some? {
      assert OkExprs(ScopedAt(|values|), p.exprs);
      ScopedExprNeverUnbound(p.exprs[0], values);
    }
  }

  lemma {:induction false} ScopedExprNeverUnbound(e: Expr, values: seq<Par>)
    requires OkExpr(ScopedAt(|values|), e)
    ensures EvalExpr(e, EnvOf(values)) != Fails(UnboundVariable)
    decreases e, 0
  {
    hide EnvOf, Apply, OkPar, EvalSingle;
    match e
    case ENot(p) => ScopedNeverUnbound(p, values);
    case ENeg(p) => ScopedNeverUnbound(p, values);
    case EBinary(op, l, r) =>
      ScopedNeverUnbound(l, values);
      ScopedNeverUnbound(r, values);
      ApplyBound();
    case EVar(v) =>
      EnvReads(values);
      if v.BoundVar? { assert |values| - v.index - 1 in EnvOf(values).values; }
    case _ =>
  }

  lemma ApplyBound()
    ensures forall op, a, b :: Apply(op, a, b) != Fails(UnboundVariable)
  {
  }

  lemma {:induction false} UrnsInOrder(uris: seq<string>, injections: seq<Injection>, urns: map<string, Par>, ps: seq<Par>)
    requires UrnValues(uris, injections, urns) == Some(ps)
    ensures |ps| == |uris| && forall i :: 0 <= i < |ps| ==> UrnValue(uris[i], injections, urns) == Some(ps[i])
  {
    if uris != [] {
      UrnsInOrder(uris[..|uris| - 1], injections, urns, UrnValues(uris[..|uris| - 1], injections, urns).value);
    }
  }

  lemma {:induction false} UrnFound(uri: string, injections: seq<Injection>, urns: map<string, Par>)
    ensures UrnValue(uri, injections, urns).Some? ==>
              var p := UrnValue(uri, injections, urns).value;
              if uri in urns then p == urns[uri] else Injection(uri, p) in injections
    decreases |injections|
  {
    if uri !in urns && injections != [] && injections[0].key != uri { UrnFound(uri, injections[1..], urns); }
  }

  /** Every declaration gets its own value: the value of its uri, or a name made up for it. */
  ghost predicate Supplies(
    ds: seq<NameDecl>, supplied: seq<Par>, made: seq<Par>, injections: seq<Injection>, urns: map<string, Par>)
  {
    && |supplied| == |ds|
    && forall i :: 0 <= i < |ds| ==> SuppliesOne(ds[i], supplied[i], i, made, injections, urns)
  }

  ghost predicate SuppliesOne(
    d: NameDecl, p: Par, i: nat, made: seq<Par>, injections: seq<Injection>, urns: map<string, Par>)
  {
    if d.NameDeclSimpl? then i < |made| && p == made[i]
    else exists s :: Unquoted(d.uri, s) && if s in urns then p == urns[s] else Injection(s, p) in injections
  }

  /** Allocation supplies the declarations of a `new` at the positions where the body reads them. */
  lemma AllocationReads(
    ds: seq<NameDecl>, n: New, values: seq<Par>, made: seq<Par>, urns: map<string, Par>, env: Env<Par>)
    requires ReadsUris(ds, n.uri) && n.bindCount == |ds| && |made| == FreshCount(n)
    requires Allocated(n, values, made, urns) == Some(env)
    ensures exists supplied :: env == EnvOf(values + supplied) && Supplies(ds, supplied, made, n.injections, urns)
  {
    hide EnvOf, UrnValue, Unquoted, UrnValues;
    var ps := UrnValues(n.uri, n.injections, urns).value;
    UrnsInOrder(n.uri, n.injections, urns, ps);
    var supplied := made + ps;
    assert values + made + ps == values + supplied;
    forall i | 0 <= i < |ds| ensures SuppliesOne(ds[i], supplied[i], i, made, n.injections, urns) {
      var k := i - |made|;
      if ds[i].NameDeclUrn? {
        assert ds[|ds| - |n.uri| + k] == ds[i] && Unquoted(ds[i].uri, n.uri[k]);
        UrnFound(n.uri[k], n.injections, urns);
      }
    }
  }
}
