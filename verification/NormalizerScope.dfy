/** Every successful normalization is well scoped at the depth of its bound map,
    and on plain trees it is closed when it has met no free name. Its own free
    variables reach exactly the levels handed out, and on map-free trees every bind
    counts what its patterns bind. One induction over the whole normalizer
    carries these judgments, together with the invariant that free levels stay a
    bijection onto 0 .. nextLevel and only grow. */
module NormalizerScope {
  import opened Orders
  import opened StableSort
  import opened Ast
  import opened ParOps
  import opened Sorter
  import opened Scope
  import opened ScopeLaws
  import opened Operands
  import opened SorterScope
  import opened ProcAst
  import opened Contexts
  import opened ContextLaws
  import opened Desugar
  import opened Dialects
  import opened Normalizer

  ghost predicate Ready(cx: Context, st: State) {
    cx.chain[0].Valid() && st.free.Valid()
  }

  /** The free map stays valid and its levels only grow. */
  ghost predicate Grown(st: State, after: State) {
    after.free.Valid() && after.free.nextLevel >= st.free.nextLevel
  }

  /** The class of source trees for which a judgment is claimed. */
  function Within(j: Judgment): Dialect {
    if j.Counted? then MapFree else PlainTrees
  }

  /** When the output of a step from `st` to `after` is claimed to satisfy `j`. */
  ghost predicate Applies(j: Judgment, fits: bool, cx: Context, st: State, after: State) {
    match j
    case ScopedAt(d) => d == cx.chain[0].nextIndex
    case ClosedIn(pat) => pat || (fits && after.free.nextLevel == st.free.nextLevel)
    case Below(n) => after.free.nextLevel == st.free.nextLevel || after.free.nextLevel <= n
    case ClosedOperands => false
    case Counted => fits && OkInjections(j, cx.env)
  }

  /** What a step claims of its output, given that its accumulator is fine: for `Below` this is exact. */
  ghost predicate Yields(j: Judgment, fits: bool, cx: Context, st: State, after: State, before: bool, ok: bool) {
    if j.Below? then ok <==> before && Applies(j, fits, cx, st, after)
    else before && Applies(j, fits, cx, st, after) ==> ok
  }

  /** Two steps in a row. */
  lemma Chain(j: Judgment, f: bool, g: bool, cx: Context, st: State, mid: State, after: State, before: bool, a: bool, b: bool)
    requires Grown(st, mid) && Grown(mid, after)
    requires Yields(j, f, cx, st, mid, before, a) && Yields(j, g, cx, mid, after, true, b)
    ensures Grown(st, after) && Yields(j, f && g, cx, st, after, before, a && b)
  {
    hide OkInjections, FreeMap.Valid;
  }

  /** Only the levels of a state matter. */
  lemma SameLevels(j: Judgment, f: bool, cx: Context, st: State, after: State, again: State, before: bool, ok: bool)
    requires Yields(j, f, cx, st, after, before, ok) && again.free.nextLevel == after.free.nextLevel
    ensures Yields(j, f, cx, st, again, before, ok)
  {
    hide OkInjections;
  }

  /** A step whose output is put on top of the accumulator. */
  lemma OnTop(j: Judgment, f: bool, cx: Context, st: State, after: State, before: bool, ok: bool)
    requires Yields(j, f, cx, st, after, before, ok) || Yields(j, f, cx, st, after, true, ok)
    ensures Yields(j, f, cx, st, after, before, before && ok)
  {
    hide OkInjections, FreeMap.Valid;
  }

  /** The judgment of a pattern, normalized in a scope of its own. */
  function PatternOf(j: Judgment): Judgment {
    if j.ScopedAt? then ScopedAt(0) else if j.Counted? then j else ClosedIn(true)
  }

  lemma PatternImplies(j: Judgment)
    ensures PatternOf(j).Implies(j.InPattern())
    ensures j != ClosedIn(false) && j != ClosedOperands ==> PatternOf(j).Implies(j.Operand())
  {
  }

  lemma PushReady(cx: Context, supply: nat)
    ensures Ready(cx.Push(), State(EmptyFreeMap, supply))
    ensures cx.Push().chain[0].nextIndex == 0
  {
    EmptyFreeValid();
  }

  lemma AbsorbReady(cx: Context, fm: FreeMap, st: State)
    requires cx.chain[0].Valid() && fm.Valid() && st.free.Valid()
    ensures Ready(cx.AbsorbFree(fm), st)
    ensures fm.nextLevel >= 0 && cx.AbsorbFree(fm).chain[0].nextIndex == cx.chain[0].nextIndex + fm.nextLevel
  {
    AbsorbValid(cx.chain[0], fm);
  }

  /** Wildcards and connectives leave the levels alone. */
  lemma CountingKeepsLevels(fm: FreeMap, c: Connective)
    requires fm.Valid()
    ensures fm.AddConnective(c).Valid() && fm.AddWildcard().Valid()
  {
    forall l | 0 <= l < fm.nextLevel
      ensures fm.AddConnective(c).HasLevel(l) && fm.AddWildcard().HasLevel(l)
    {
      assert fm.HasLevel(l);
    }
  }

  // ----- variables and remainders

  lemma ProcVarOk(j: Judgment, v: ProcVar, acc: Par, cx: Context, st: State, r: Out)
    requires Ready(cx, st) && NormProcVar(v, acc, cx, st) == Ok(r)
    ensures Grown(st, r.st)
    ensures Yields(j, true, cx, st, r.st, OkPar(j, acc), OkPar(j, r.par))
  {
    hide OkSends, OkReceives, OkNews, OkExprs, OkMatches, OkBundles, OkConnectives, OkInjections;
    CountingKeepsLevels(st.free, ConnNot(Nil));
    if v.ProcVarVar? && cx.Get(v.x).None? {
      FreePutValid(st.free, v.x, ProcSort);
    }
    PrependExprOk(j, acc, r.par.exprs[0]);
  }

  lemma NameVarOk(j: Judgment, x: Ident, cx: Context, st: State, r: Out)
    requires Ready(cx, st) && NormNameVar(x, cx, st) == Ok(r)
    ensures Grown(st, r.st)
    ensures Yields(j, true, cx, st, r.st, true, OkPar(j, r.par))
  {
    hide OkSends, OkReceives, OkNews, OkExprs, OkMatches, OkBundles, OkConnectives, OkInjections;
    if cx.Get(x).None? {
      FreePutValid(st.free, x, NameSort);
    }
    NilOk(j);
    PrependExprOk(j, Nil, r.par.exprs[0]);
  }

  lemma RemainderOk(j: Judgment, r: Remainder, fm: FreeMap, rest: Rest)
    requires fm.Valid() && NormRemainder(r, fm) == Ok(rest)
    ensures rest.free.Valid() && rest.free.nextLevel >= fm.nextLevel
    ensures j.BindRemainder(rest.v)
    ensures j.Rest(rest.v) <==> (j.Below? ==> rest.free.nextLevel == fm.nextLevel || rest.free.nextLevel <= j.level)
  {
    CountingKeepsLevels(fm, ConnNot(Nil));
    if r.RemainderVar? && r.v.ProcVarVar? {
      FreePutValid(fm, r.v.x, ProcSort);
    }
  }

  // ----- the induction

  lemma {:induction false} NameOk(j: Judgment, n: Name, cx: Context, st: State, r: Out)
    requires Ready(cx, st) && NormName(n, cx, st) == Ok(r)
    ensures Grown(st, r.st)
    ensures Yields(j, FitsName(Within(j), n), cx, st, r.st, true, OkPar(j, r.par))
    decreases WName(n), 0
  {
    hide NormProc, NormNameVar, OkPar, OkExprs, FreeMap.Valid;
    NilOk(j);
    CountingKeepsLevels(st.free, ConnNot(Nil));
    match n
    case NameWildcard => PrependExprOk(j, Nil, EVar(Wildcard));
    case NameVar(x) => NameVarOk(j, x, cx, st, r);
    case NameQuote(p) => ProcOk(j, p, Nil, cx, st, r);
  }

  /** Successful normalization is well scoped, and closed on plain trees that met no free name. */
  lemma {:induction false} ProcOk(j: Judgment, p: Proc, acc: Par, cx: Context, st: State, r: Out)
    requires Ready(cx, st) && NormProc(p, acc, cx, st) == Ok(r)
    ensures Grown(st, r.st)
    ensures Yields(j, FitsProc(Within(j), p), cx, st, r.st, OkPar(j, acc), OkPar(j, r.par))
    decreases WProc(p), 9
  {
    hide NormName, NormEval, NormPPar, NormSend, NormCollect, NormOperator, NormSugar, NormForm, NormProcVar, NormVarRef,
         OkPar;
    if IsOperator(p) {
      OperatorOk(j, p, acc, cx, st, r);
    } else if IsForm(p) {
      FormOk(j, p, acc, cx, st, r);
    } else if IsSugar(p) {
      SugarOk(j, p, acc, cx, st, r);
    } else {
      match p
      case PGround(g) =>
        var e := NormGround(g).value;
        PrependExprOk(j, acc, e);
      case PNil =>
      case PExprs(q) => ProcOk(j, q, acc, cx, st, r);
      case PVar(v) => ProcVarOk(j, v, acc, cx, st, r);
      case PVarRef(kind, x) => VarRefOk(j, kind, x, acc, cx, st, r);
      case PSimpleType(t) => SimpleTypeOk(j, t, acc);
      case PEval(n) => EvalOk(j, n, acc, cx, st, r);
      case PPar(l, q) => PParOk(j, l, q, acc, cx, st, r);
      case PSend(n, multiple, data) => SendOk(j, n, multiple, data, acc, cx, st, r);
      case PCollect(c) => CollectOk(j, c, acc, cx, st, r);
    }
  }

  lemma {:induction false} OperatorOk(j: Judgment, p: Proc, acc: Par, cx: Context, st: State, r: Out)
    requires IsOperator(p)
    requires Ready(cx, st) && NormOperator(p, acc, cx, st) == Ok(r)
    ensures Grown(st, r.st)
    ensures Yields(j, FitsProc(Within(j), p), cx, st, r.st, OkPar(j, acc), OkPar(j, r.par))
    decreases WProc(p), 8
  {
    hide NormNot, NormNeg, NormBinary, NormMatches, NormNegation, NormConjunction, NormDisjunction, NormMethod, OkPar;
    match p
    case PNot(q) => NotOk(j, q, acc, cx, st, r);
    case PNeg(q) => NegOk(j, q, acc, cx, st, r);
    case PBinary(op, l, q) => BinaryOk(j, op, l, q, acc, cx, st, r);
    case PMatches(l, q) => MatchesOk(j, l, q, acc, cx, st, r);
    case PNegation(q) => NegationOk(j, q, acc, cx, st, r);
    case PConjunction(l, q) => ConjunctionOk(j, l, q, acc, cx, st, r);
    case PDisjunction(l, q) => DisjunctionOk(j, l, q, acc, cx, st, r);
    case PMethod(target, name, args) => MethodOk(j, target, name, args, acc, cx, st, r);
  }

  lemma VarRefOk(j: Judgment, kind: VarRefKind, x: Ident, acc: Par, cx: Context, st: State, r: Out)
    requires Ready(cx, st) && NormVarRef(kind, x, acc, cx, st) == Ok(r)
    ensures Grown(st, r.st)
    ensures Yields(j, true, cx, st, r.st, OkPar(j, acc), OkPar(j, r.par))
  {
    hide OkPar, OkConnectives, OkInjections;
    var (bc, depth) := ChainFind(cx.chain, x).value;
    PrependConnectiveOk(j, acc, VarRef(bc.index, depth));
  }

  lemma SimpleTypeOk(j: Judgment, t: SimpleType, acc: Par)
    ensures OkPar(j, WithConnectiveUsed(PrependConnective(acc, TypeConnective(t)))) <==> OkPar(j, acc)
  {
    hide OkSends, OkReceives, OkNews, OkExprs, OkMatches, OkBundles, OkConnectives;
    PrependConnectiveOk(j, acc, TypeConnective(t));
  }

  lemma {:induction false} EvalOk(j: Judgment, n: Name, acc: Par, cx: Context, st: State, r: Out)
    requires Ready(cx, st) && NormEval(n, acc, cx, st) == Ok(r)
    ensures Grown(st, r.st)
    ensures Yields(j, FitsName(Within(j), n), cx, st, r.st, OkPar(j, acc), OkPar(j, r.par))
    decreases WName(n), 1
  {
    hide NormName, OkPar, ParConcat;
    var name := NormName(n, cx, st).value;
    NameOk(j, n, cx, st, name);
    ConcatOk(j, acc, name.par);
  }

  lemma {:induction false} PParOk(j: Judgment, l: Proc, q: Proc, acc: Par, cx: Context, st: State, r: Out)
    requires Ready(cx, st) && NormPPar(l, q, acc, cx, st) == Ok(r)
    ensures Grown(st, r.st)
    ensures Yields(j, FitsProc(Within(j), l) && FitsProc(Within(j), q), cx, st, r.st, OkPar(j, acc), OkPar(j, r.par))
    decreases 1 + WProc(l) + WProc(q), 0
  {
    hide NormProc, OkPar, FitsProc;
    var left := NormProc(l, acc, cx, st).value;
    ProcOk(j, l, acc, cx, st, left);
    ProcOk(j, q, left.par, cx, left.st, r);
  }

  lemma {:induction false} NotOk(j: Judgment, p: Proc, acc: Par, cx: Context, st: State, r: Out)
    requires Ready(cx, st) && NormNot(p, acc, cx, st) == Ok(r)
    ensures Grown(st, r.st)
    ensures Yields(j, FitsProc(Within(j), p), cx, st, r.st, OkPar(j, acc), OkPar(j, r.par))
    decreases 1 + WProc(p), 0
  {
    hide NormProc, OkPar, FitsProc;
    NilOk(j);
    var b := NormProc(p, Nil, cx, st).value;
    ProcOk(j, p, Nil, cx, st, b);
    PrependExprOk(j, acc, ENot(b.par));
  }

  lemma {:induction false} NegOk(j: Judgment, p: Proc, acc: Par, cx: Context, st: State, r: Out)
    requires Ready(cx, st) && NormNeg(p, acc, cx, st) == Ok(r)
    ensures Grown(st, r.st)
    ensures Yields(j, FitsProc(Within(j), p), cx, st, r.st, OkPar(j, acc), OkPar(j, r.par))
    decreases 1 + WProc(p), 0
  {
    hide NormProc, OkPar, FitsProc;
    NilOk(j);
    var b := NormProc(p, Nil, cx, st).value;
    ProcOk(j, p, Nil, cx, st, b);
    PrependExprOk(j, acc, ENeg(b.par));
  }

  lemma {:induction false} BinaryOk(
    j: Judgment, op: SourceOp, l: Proc, q: Proc, acc: Par, cx: Context, st: State, r: Out)
    requires Ready(cx, st) && NormBinary(op, l, q, acc, cx, st) == Ok(r)
    ensures Grown(st, r.st)
    ensures Yields(j, FitsProc(Within(j), l) && FitsProc(Within(j), q), cx, st, r.st, OkPar(j, acc), OkPar(j, r.par))
    decreases 1 + WProc(l) + WProc(q), 0
  {
    hide NormProc, OkPar, FitsProc, Yields, Applies, FreeMap.Valid, BoundMap.Valid, OkInjections, PrependExpr;
    NilOk(j);
    var left := NormProc(l, Nil, cx, st).value;
    ProcOk(j, l, Nil, cx, st, left);
    var right := NormProc(q, Nil, cx, left.st).value;
    ProcOk(j, q, Nil, cx, left.st, right);
    PrependExprOk(j, acc, EBinary(op, left.par, right.par));
    Chain(j, FitsProc(Within(j), l), FitsProc(Within(j), q), cx, st, left.st, right.st, true,
          OkPar(j, left.par), OkPar(j, right.par));
    OnTop(j, FitsProc(Within(j), l) && FitsProc(Within(j), q), cx, st, right.st, OkPar(j, acc),
          OkPar(j, left.par) && OkPar(j, right.par));
  }

  lemma PatternOperandOk(j: Judgment, p: Par)
    requires OkPar(PatternOf(j), p) && j != ClosedIn(false) && j != ClosedOperands
    ensures OkPar(j.Operand(), p)
  {
    hide OkPar;
    PatternImplies(j);
    WeakenPar(PatternOf(j), j.Operand(), p);
  }

  lemma MatchesStep(j: Judgment, f: bool, g: bool, acc: Par, cx: Context, st: State, left: Out, right: Out)
    requires Yields(j, f, cx, st, left.st, true, OkPar(j, left.par))
    requires Yields(PatternOf(j), g, cx.Push(), State(EmptyFreeMap, left.st.supply), right.st, true,
                    OkPar(PatternOf(j), right.par))
    ensures Yields(j, j.Counted? && f && g, cx, st, State(left.st.free, right.st.supply), OkPar(j, acc),
                   OkPar(j, PrependExpr(acc, EBinary(Matches, left.par, right.par))))
  {
    hide OkPar, OkInjections, PrependExpr;
    if OkPar(PatternOf(j), right.par) && j != ClosedIn(false) && j != ClosedOperands { PatternOperandOk(j, right.par); }
    PrependExprOk(j, acc, EBinary(Matches, left.par, right.par));
  }

  lemma {:induction false} MatchesOk(j: Judgment, l: Proc, q: Proc, acc: Par, cx: Context, st: State, r: Out)
    requires Ready(cx, st) && NormMatches(l, q, acc, cx, st) == Ok(r)
    ensures Grown(st, r.st)
    ensures Yields(j, j.Counted? && FitsProc(Within(j), l) && FitsProc(Within(j), q), cx, st, r.st,
                   OkPar(j, acc), OkPar(j, r.par))
    decreases 1 + WProc(l) + WProc(q), 0
  {
    hide NormProc, OkPar, FitsProc, FreeMap.Valid, BoundMap.Valid, Yields, Applies, PrependExpr;
    NilOk(j);
    NilOk(PatternOf(j));
    var left := NormProc(l, Nil, cx, st).value;
    ProcOk(j, l, Nil, cx, st, left);
    PushReady(cx, left.st.supply);
    var start := State(EmptyFreeMap, left.st.supply);
    var right := NormProc(q, Nil, cx.Push(), start).value;
    ProcOk(PatternOf(j), q, Nil, cx.Push(), start, right);
    var g := FitsProc(Within(PatternOf(j)), q);
    MatchesStep(j, FitsProc(Within(j), l), g, acc, cx, st, left, right);
    assert j.Counted? ==> Within(PatternOf(j)) == Within(j);
  }

  lemma {:induction false} NegationOk(j: Judgment, p: Proc, acc: Par, cx: Context, st: State, r: Out)
    requires Ready(cx, st) && NormNegation(p, acc, cx, st) == Ok(r)
    ensures Grown(st, r.st)
    ensures Yields(j, j.Counted? && FitsProc(Within(j), p), cx, st, r.st, OkPar(j, acc), OkPar(j, r.par))
    decreases 1 + WProc(p), 0
  {
    hide NormProc, OkPar, FitsProc, FreeMap.Valid;
    NilOk(j.Operand());
    EmptyFreeValid();
    var b := NormProc(p, Nil, cx, State(EmptyFreeMap, st.supply)).value;
    ProcOk(j.Operand(), p, Nil, cx, State(EmptyFreeMap, st.supply), b);
    CountingKeepsLevels(st.free, ConnNot(b.par));
    PrependConnectiveOk(j, acc, ConnNot(b.par));
  }

  lemma ConjoinOk(j: Judgment, l: Par, q: Par)
    ensures OkConnective(j, Conjoin(l, q)) <==> OkPar(j, l) && OkPar(j, q)
    ensures OkConnective(j, Disjoin(l, q)) <==> OkPar(j.Operand(), l) && OkPar(j.Operand(), q)
  {
    hide OkPar, OkPars;
    ParsAppend(j, [l], q);
    ParsAppend(j.Operand(), [l], q);
    OneParOk(j, l);
    OneParOk(j.Operand(), l);
    assert [l] + [q] == [l, q];
    if SingleConnective(l).Some? {
      var c := SingleConnective(l).value;
      SingleConnectiveOk(j, l);
      SingleConnectiveOk(j.Operand(), l);
      if c.ConnAnd? || c.ConnOr? {
        ParsAppend(j, c.ps, q);
        ParsAppend(j.Operand(), c.ps, q);
      }
    }
  }

  lemma OneParOk(j: Judgment, p: Par)
    ensures OkPars(j, [p]) <==> OkPar(j, p)
  {
    hide OkPar;
    assert [p][0] == p;
  }

  lemma ParsAppend(j: Judgment, ps: seq<Par>, p: Par)
    ensures OkPars(j, ps + [p]) <==> OkPars(j, ps) && OkPar(j, p)
  {
    hide OkPar;
    assert forall i :: 0 <= i < |ps| ==> (ps + [p])[i] == ps[i];
    assert (ps + [p])[|ps|] == p;
  }

  lemma ParsFirst(j: Judgment, p: Par, ps: seq<Par>)
    ensures OkPars(j, [p] + ps) <==> OkPar(j, p) && OkPars(j, ps)
  {
    hide OkPar;
    assert forall i :: 0 <= i < |ps| ==> ([p] + ps)[i + 1] == ps[i];
    assert ([p] + ps)[0] == p;
  }

  lemma SingleConnectiveOk(j: Judgment, p: Par)
    ensures SingleConnective(p).Some? ==> (OkPar(j, p) <==> OkConnective(j, SingleConnective(p).value))
  {
    hide OkConnective;
  }

  lemma {:induction false} ConjunctionOk(j: Judgment, l: Proc, q: Proc, acc: Par, cx: Context, st: State, r: Out)
    requires Ready(cx, st) && NormConjunction(l, q, acc, cx, st) == Ok(r)
    ensures Grown(st, r.st)
    ensures Yields(j, FitsProc(Within(j), l) && FitsProc(Within(j), q), cx, st, r.st, OkPar(j, acc), OkPar(j, r.par))
    decreases 1 + WProc(l) + WProc(q), 0
  {
    hide NormProc, OkPar, FitsProc, Conjoin, FreeMap.Valid, Yields, Applies, BoundMap.Valid, OkInjections,
         PrependConnective;
    NilOk(j);
    var left := NormProc(l, Nil, cx, st).value;
    ProcOk(j, l, Nil, cx, st, left);
    var right := NormProc(q, Nil, cx, left.st).value;
    ProcOk(j, q, Nil, cx, left.st, right);
    CountingKeepsLevels(right.st.free, Conjoin(left.par, right.par));
    ConjoinOk(j, left.par, right.par);
    PrependConnectiveOk(j, acc, Conjoin(left.par, right.par));
    Chain(j, FitsProc(Within(j), l), FitsProc(Within(j), q), cx, st, left.st, right.st, true,
          OkPar(j, left.par), OkPar(j, right.par));
    SameLevels(j, FitsProc(Within(j), l) && FitsProc(Within(j), q), cx, st, right.st, r.st, true,
               OkPar(j, left.par) && OkPar(j, right.par));
    OnTop(j, FitsProc(Within(j), l) && FitsProc(Within(j), q), cx, st, r.st, OkPar(j, acc),
          OkPar(j, left.par) && OkPar(j, right.par));
  }

  lemma DisjoinStep(j: Judgment, f: bool, g: bool, acc: Par, cx: Context, st: State, left: Out, right: Out)
    requires Yields(j.Operand(), f, cx, State(EmptyFreeMap, st.supply), left.st, true, OkPar(j.Operand(), left.par))
    requires Yields(j.Operand(), g, cx, State(EmptyFreeMap, left.st.supply), right.st, true, OkPar(j.Operand(), right.par))
    ensures var c := Disjoin(left.par, right.par);
            Yields(j, j.Counted? && f && g, cx, st, State(st.free.AddConnective(c), right.st.supply), OkPar(j, acc),
                   OkPar(j, PrependConnective(acc, c)))
  {
    hide OkPar, Disjoin, OkInjections, PrependConnective;
    ConjoinOk(j, left.par, right.par);
    PrependConnectiveOk(j, acc, Disjoin(left.par, right.par));
  }

  lemma {:induction false} DisjunctionOk(j: Judgment, l: Proc, q: Proc, acc: Par, cx: Context, st: State, r: Out)
    requires Ready(cx, st) && NormDisjunction(l, q, acc, cx, st) == Ok(r)
    ensures Grown(st, r.st)
    ensures Yields(j, j.Counted? && FitsProc(Within(j), l) && FitsProc(Within(j), q), cx, st, r.st,
                   OkPar(j, acc), OkPar(j, r.par))
    decreases 1 + WProc(l) + WProc(q), 0
  {
    hide NormProc, OkPar, FitsProc, Disjoin, FreeMap.Valid, BoundMap.Valid, OkInjections, Yields, Applies,
         PrependConnective;
    NilOk(j.Operand());
    EmptyFreeValid();
    var left := NormProc(l, Nil, cx, State(EmptyFreeMap, st.supply)).value;
    ProcOk(j.Operand(), l, Nil, cx, State(EmptyFreeMap, st.supply), left);
    var right := NormProc(q, Nil, cx, State(EmptyFreeMap, left.st.supply)).value;
    ProcOk(j.Operand(), q, Nil, cx, State(EmptyFreeMap, left.st.supply), right);
    CountingKeepsLevels(st.free, Disjoin(left.par, right.par));
    DisjoinStep(j, FitsProc(Within(j), l), FitsProc(Within(j), q), acc, cx, st, left, right);
  }

  lemma {:induction false} ProcsOk(j: Judgment, ps: seq<Proc>, cx: Context, st: State, r: Outs)
    requires Ready(cx, st) && NormProcs(ps, cx, st) == Ok(r)
    ensures Grown(st, r.st)
    ensures Yields(j, FitsProcs(Within(j), ps), cx, st, r.st, true, OkPars(j, r.pars))
    decreases WProcs(ps), 0
  {
    hide NormProc, OkPar, FitsProc;
    if ps != [] {
      NilOk(j);
      var first := NormProc(ps[0], Nil, cx, st).value;
      ProcOk(j, ps[0], Nil, cx, st, first);
      var rest := NormProcs(ps[1..], cx, first.st).value;
      ProcsOk(j, ps[1..], cx, first.st, rest);
      ParsFirst(j, first.par, rest.pars);
      hide OkPars;
    }
  }

  lemma {:induction false} ProcsBackwardOk(j: Judgment, ps: seq<Proc>, cx: Context, st: State, r: Outs)
    requires Ready(cx, st) && NormProcsBackward(ps, cx, st) == Ok(r)
    ensures Grown(st, r.st)
    ensures Yields(j, FitsProcs(Within(j), ps), cx, st, r.st, true, OkPars(j, r.pars))
    decreases WProcs(ps), 0
  {
    hide NormProc, OkPar, FitsProc, OkPars, Yields, Applies, FreeMap.Valid, BoundMap.Valid, OkInjections;
    if ps == [] {
      NothingOk(j, FitsProcs(Within(j), ps), cx, st);
    } else {
      NilOk(j);
      var init, last := ps[..|ps| - 1], ps[|ps| - 1];
      assert ps == init + [last];
      WProcsAppend(init, last);
      var b := NormProc(last, Nil, cx, st).value;
      ProcOk(j, last, Nil, cx, st, b);
      var rest := NormProcsBackward(init, cx, b.st).value;
      ProcsBackwardOk(j, init, cx, b.st, rest);
      ParsAppend(j, rest.pars, b.par);
      ProcsFit(Within(j), init, last);
      Chain(j, FitsProc(Within(j), last), FitsProcs(Within(j), init), cx, st, b.st, rest.st, true,
            OkPar(j, b.par), OkPars(j, rest.pars));
    }
  }

  lemma ProcsFit(d: Dialect, init: seq<Proc>, last: Proc)
    ensures FitsProcs(d, init + [last]) <==> FitsProcs(d, init) && FitsProc(d, last)
  {
    hide FitsProc;
    var ps := init + [last];
    assert forall i :: 0 <= i < |init| ==> ps[i] == init[i];
    assert ps[|init|] == last;
  }

  lemma NothingOk(j: Judgment, f: bool, cx: Context, st: State)
    ensures OkPars(j, []) && Yields(j, f, cx, st, st, true, OkPars(j, []))
  {
  }

  lemma {:induction false} NamesOk(j: Judgment, ns: seq<Name>, guarded: bool, cx: Context, st: State, r: Outs)
    requires Ready(cx, st) && NormNames(ns, guarded, cx, st) == Ok(r)
    ensures Grown(st, r.st)
    ensures Yields(j, j.Counted? && FitsPatterns(Within(j), ns), cx, st, r.st, true, OkPars(j, r.pars))
    decreases WNames(ns), 0
  {
    hide NormName, OkPar, FitsName;
    if ns != [] {
      var first := NormName(ns[0], cx, st).value;
      NameOk(j, ns[0], cx, st, first);
      var rest := NormNames(ns[1..], guarded, cx, first.st).value;
      NamesOk(j, ns[1..], guarded, cx, first.st, rest);
      ParsFirst(j, first.par, rest.pars);
      hide OkPars;
    }
  }

  /** The levels that the patterns handed out are those their terms reach. */
  ghost predicate Reaches(pars: seq<Par>, before: int, after: int) {
    forall n :: OkPars(Below(n), pars) <==> after == before || after <= n
  }

  lemma {:induction false} NamesReach(ns: seq<Name>, guarded: bool, cx: Context, st: State, r: Outs)
    requires Ready(cx, st) && NormNames(ns, guarded, cx, st) == Ok(r)
    ensures Reaches(r.pars, st.free.nextLevel, r.st.free.nextLevel)
    decreases WNames(ns), 1
  {
    hide NormNames, OkPars, FitsPatterns;
    forall n ensures OkPars(Below(n), r.pars) <==> r.st.free.nextLevel == st.free.nextLevel || r.st.free.nextLevel <= n {
      NamesOk(Below(n), ns, guarded, cx, st, r);
    }
  }

  /** So a bind counts what its patterns and remainder bind. */
  lemma CountsReached(pars: seq<Par>, fm: FreeMap, remainder: Remainder, rest: Rest)
    requires fm.nextLevel >= 0 && Reaches(pars, 0, fm.nextLevel) && NormRemainder(remainder, fm) == Ok(rest)
    ensures Counts(rest.free.nextLevel, pars, rest.v)
  {
    hide OkPars;
  }

  lemma {:induction false} SendOk(
    j: Judgment, n: Name, multiple: bool, data: seq<Proc>, acc: Par, cx: Context, st: State, r: Out)
    requires Ready(cx, st) && NormSend(n, multiple, data, acc, cx, st) == Ok(r)
    ensures Grown(st, r.st)
    ensures Yields(j, FitsName(Within(j), n) && FitsProcs(Within(j), data), cx, st, r.st, OkPar(j, acc), OkPar(j, r.par))
    decreases 1 + WName(n) + WProcs(data), 0
  {
    hide NormName, NormProcsBackward, OkPar, OkPars, FitsProcs;
    var name := NormName(n, cx, st).value;
    NameOk(j, n, cx, st, name);
    var ds := NormProcsBackward(data, cx, name.st).value;
    ProcsBackwardOk(j, data, cx, name.st, ds);
    PrependSendOk(j, acc, Send(name.par, ds.pars, multiple, name.par.connectiveUsed || AnyConnectiveUsed(ds.pars)));
  }

  lemma {:induction false} MethodOk(
    j: Judgment, target: Proc, name: string, args: seq<Proc>, acc: Par, cx: Context, st: State, r: Out)
    requires Ready(cx, st) && NormMethod(target, name, args, acc, cx, st) == Ok(r)
    ensures Grown(st, r.st)
    ensures Yields(j, FitsProc(Within(j), target) && FitsProcs(Within(j), args), cx, st, r.st,
                   OkPar(j, acc), OkPar(j, r.par))
    decreases 1 + WProc(target) + WProcs(args), 0
  {
    hide NormProc, NormProcsBackward, OkPar, OkPars, FitsProcs, FitsProc, Yields, Applies, FreeMap.Valid,
         BoundMap.Valid, OkInjections, PrependExpr;
    NilOk(j);
    var t := NormProc(target, Nil, cx, st).value;
    ProcOk(j, target, Nil, cx, st, t);
    var xs := NormProcsBackward(args, cx, t.st).value;
    ProcsBackwardOk(j, args, cx, t.st, xs);
    PrependExprOk(j, acc, EMethod(name, t.par, xs.pars, t.par.connectiveUsed || AnyConnectiveUsed(xs.pars)));
    Chain(j, FitsProc(Within(j), target), FitsProcs(Within(j), args), cx, st, t.st, xs.st, true,
          OkPar(j, t.par), OkPars(j, xs.pars));
    OnTop(j, FitsProc(Within(j), target) && FitsProcs(Within(j), args), cx, st, xs.st, OkPar(j, acc),
          OkPar(j, t.par) && OkPars(j, xs.pars));
  }

  lemma {:induction false} NewOk(
    j: Judgment, names: seq<NameDecl>, body: Proc, acc: Par, cx: Context, st: State, r: Out)
    requires Ready(cx, st) && NormNew(names, body, acc, cx, st) == Ok(r)
    ensures Grown(st, r.st)
    ensures Yields(j, FitsProc(Within(j), body), cx, st, r.st, OkPar(j, acc), OkPar(j, r.par))
    decreases 1 + WProc(body), 0
  {
    hide NormProc, OkPar, FitsProc, SortDecls, BoundMap.PutAll;
    var sorted := SortDecls(names);
    var inner := cx.PutAll(DeclNames(sorted));
    PutAllValid(cx.chain[0], DeclNames(sorted), NameSort);
    var j' := j.Under(|sorted|);
    NilOk(j');
    var b := NormProc(body, Nil, inner, st).value;
    ProcOk(j', body, Nil, inner, st, b);
    PrependNewOk(j, acc, New(|sorted|, b.par, DeclUris(sorted), cx.env));
  }

  lemma {:induction false} BundleOk(
    j: Judgment, kind: BundleKind, body: Proc, acc: Par, cx: Context, st: State, r: Out)
    requires Ready(cx, st) && NormBundle(kind, body, acc, cx, st) == Ok(r)
    ensures Grown(st, r.st)
    ensures Yields(j, FitsProc(Within(j), body), cx, st, r.st, OkPar(j, acc), OkPar(j, r.par))
    decreases 1 + WProc(body), 0
  {
    hide NormProc, OkPar, FitsProc;
    NilOk(j);
    var b := NormProc(body, Nil, cx, st).value;
    ProcOk(j, body, Nil, cx, st, b);
    NoBindingsNoLevels(b.st.free);
    var merged := r.par.bundles[0];
    if OkPar(j, b.par) { SingleBundleOk(j, b.par); }
    PrependBundleOk(j, acc, merged);
  }

  lemma SingleBundleOk(j: Judgment, p: Par)
    requires OkPar(j, p)
    ensures SingleBundle(p).Some? ==> OkPar(j, SingleBundle(p).value.body)
  {
    if SingleBundle(p).Some? {
      assert OkBundle(j, p.bundles[0]);
    }
  }

  lemma {:induction false} CollectOk(j: Judgment, c: Collection, acc: Par, cx: Context, st: State, r: Out)
    requires Ready(cx, st) && NormCollect(c, acc, cx, st) == Ok(r)
    ensures Grown(st, r.st)
    ensures Yields(j, FitsCollection(Within(j), c), cx, st, r.st, OkPar(j, acc), OkPar(j, r.par))
    decreases 1 + WCollection(c), 0
  {
    hide NormCollection, OkPar, FitsCollection;
    var e := NormCollection(c, cx, st).value;
    CollectionOk(j, c, cx, st, e);
    PrependExprOk(j, acc, e.expr);
  }

  lemma {:induction false} CollectionOk(j: Judgment, c: Collection, cx: Context, st: State, r: ExprOut)
    requires Ready(cx, st) && NormCollection(c, cx, st) == Ok(r)
    ensures Grown(st, r.st)
    ensures Yields(j, FitsCollection(Within(j), c), cx, st, r.st, true, OkExpr(j, r.expr))
    decreases WCollection(c), 1
  {
    hide NormProcs, NormKeyValues, NormRemainder, OkPars, OkKeyValues, FitsProcs, FitsKeyValues, FreeMap.Valid,
         BoundMap.Valid;
    if c.CollectTuple? {
      assert ([c.first] + c.rest)[1..] == c.rest;
      assert FitsCollection(Within(j), c) ==> FitsProcs(Within(j), [c.first] + c.rest) by { TupleFits(Within(j), c.first, c.rest); }
      ProcsOk(j, [c.first] + c.rest, cx, st, NormProcs([c.first] + c.rest, cx, st).value);
    } else {
      var rest := NormRemainder(c.remainder, st.free).value;
      RemainderOk(j, c.remainder, st.free, rest);
      var st' := st.(free := rest.free);
      if c.CollectMap? {
        KeyValuesOk(j, c.kvs, cx, st', NormKeyValues(c.kvs, cx, st').value);
      } else {
        ProcsOk(j, c.ps, cx, st', NormProcs(c.ps, cx, st').value);
      }
    }
  }

  lemma TupleFits(d: Dialect, p: Proc, rest: seq<Proc>)
    ensures FitsProc(d, p) && FitsProcs(d, rest) ==> FitsProcs(d, [p] + rest)
  {
    hide FitsProc;
  }

  lemma {:induction false} KeyValuesOk(j: Judgment, kvs: seq<KeyValuePair>, cx: Context, st: State, r: KeyValueOuts)
    requires Ready(cx, st) && NormKeyValues(kvs, cx, st) == Ok(r)
    ensures Grown(st, r.st)
    ensures Yields(j, FitsKeyValues(Within(j), kvs), cx, st, r.st, true, OkKeyValues(j, r.kvs))
    decreases WKeyValues(kvs), 0
  {
    hide NormProc, OkPar, FitsProc, FreeMap.Valid, BoundMap.Valid, OkInjections;
    if kvs != [] {
      NilOk(j);
      assert WKeyValues(kvs) == WKeyValue(kvs[0]) + WKeyValues(kvs[1..]);
      var k := NormProc(kvs[0].key, Nil, cx, st).value;
      ProcOk(j, kvs[0].key, Nil, cx, st, k);
      var v := NormProc(kvs[0].value, Nil, cx, k.st).value;
      ProcOk(j, kvs[0].value, Nil, cx, k.st, v);
      var rest := NormKeyValues(kvs[1..], cx, v.st).value;
      KeyValuesOk(j, kvs[1..], cx, v.st, rest);
      assert FitsKeyValues(Within(j), kvs) ==> FitsKeyValue(Within(j), kvs[0]) && FitsKeyValues(Within(j), kvs[1..]);
      KeyValuesFirst(j, KeyValue(k.par, v.par), rest.kvs);
      hide OkKeyValues;
    }
  }

  lemma KeyValuesFirst(j: Judgment, kv: KeyValue, kvs: seq<KeyValue>)
    ensures OkKeyValues(j, [kv] + kvs) <==> OkKeyValue(j, kv) && OkKeyValues(j, kvs)
  {
    hide OkKeyValue;
    assert forall i :: 0 <= i < |kvs| ==> ([kv] + kvs)[i + 1] == kvs[i];
    assert ([kv] + kvs)[0] == kv;
  }

  lemma {:induction false} FormOk(j: Judgment, p: Proc, acc: Par, cx: Context, st: State, r: Out)
    requires IsForm(p)
    requires Ready(cx, st) && NormForm(p, acc, cx, st) == Ok(r)
    ensures Grown(st, r.st)
    ensures Yields(j, FitsProc(Within(j), p), cx, st, r.st, OkPar(j, acc), OkPar(j, r.par))
    decreases WProc(p), 8
  {
    hide NormNew, NormBundle, NormIf, NormMatch, NormContr, OkPar;
    match p
    case PNew(names, body) => NewOk(j, names, body, acc, cx, st, r);
    case PBundle(kind, body) => BundleOk(j, kind, body, acc, cx, st, r);
    case PIf(cond, body) => IfOk(j, cond, body, PNil, acc, cx, st, r);
    case PIfElse(cond, body, otherwise) => IfOk(j, cond, body, otherwise, acc, cx, st, r);
    case PMatch(target, cases) => MatchOk(j, target, cases, acc, cx, st, r);
    case PContr(n, formals, remainder, body) => ContrOk(j, n, formals, remainder, body, acc, cx, st, r);
  }

  lemma {:induction false} IfOk(
    j: Judgment, cond: Proc, body: Proc, otherwise: Proc, acc: Par, cx: Context, st: State, r: Out)
    requires Ready(cx, st) && NormIf(cond, body, otherwise, acc, cx, st) == Ok(r)
    ensures Grown(st, r.st)
    ensures Yields(j, FitsProc(Within(j), cond) && FitsProc(Within(j), body) && FitsProc(Within(j), otherwise), cx, st, r.st,
                   OkPar(j, acc), OkPar(j, r.par))
    decreases WProc(cond) + WProc(body) + WProc(otherwise) + 1, 0
  {
    hide NormProc, OkPar, FitsProc, FromExpr, OkMatchCases, Yields, Applies, OkMatchCase, FreeMap.Valid,
         BoundMap.Valid, OkInjections, PrependMatch;
    NilOk(j);
    var target := NormProc(cond, acc, cx, st).value;
    ProcOk(j, cond, acc, cx, st, target);
    var t := NormProc(body, Nil, cx, target.st).value;
    ProcOk(j, body, Nil, cx, target.st, t);
    var f := NormProc(otherwise, Nil, cx, t.st).value;
    ProcOk(j, otherwise, Nil, cx, t.st, f);
    var yes := MatchCase(FromExpr(GBool(true)), t.par, 0);
    var no := MatchCase(FromExpr(GBool(false)), f.par, 0);
    BoolPatternOk(j, true);
    BoolPatternOk(j, false);
    TwoCasesOk(j, yes, no);
    UnboundCaseOk(j, yes);
    UnboundCaseOk(j, no);
    PrependMatchOk(j, acc, Match(target.par, [yes, no],
      target.par.connectiveUsed || t.par.connectiveUsed || f.par.connectiveUsed));
    var c, b, o := FitsProc(Within(j), cond), FitsProc(Within(j), body), FitsProc(Within(j), otherwise);
    Chain(j, c, b, cx, st, target.st, t.st, OkPar(j, acc), OkPar(j, target.par), OkPar(j, t.par));
    Chain(j, c && b, o, cx, st, t.st, f.st, OkPar(j, acc), OkPar(j, target.par) && OkPar(j, t.par), OkPar(j, f.par));
    OnTop(j, c && b && o, cx, st, f.st, OkPar(j, acc), OkPar(j, target.par) && OkPar(j, t.par) && OkPar(j, f.par));
  }

  lemma UnboundCaseOk(j: Judgment, c: MatchCase)
    requires c.freeCount == 0 && OkPar(j.InPattern(), c.pattern)
    ensures OkMatchCase(j, c) <==> OkPar(j, c.source)
  {
    hide OkPar;
  }

  lemma BoolPatternOk(j: Judgment, b: bool)
    ensures OkPar(j.InPattern(), FromExpr(GBool(b)))
  {
    hide OkPar;
    NilOk(j.InPattern());
    PrependExprOk(j.InPattern(), Nil, GBool(b));
  }

  lemma TwoCasesOk(j: Judgment, a: MatchCase, b: MatchCase)
    ensures OkMatchCases(j, [a, b]) <==> OkMatchCase(j, a) && OkMatchCase(j, b)
  {
    hide OkMatchCase;
    assert [a, b][0] == a && [a, b][1] == b;
  }

  lemma CasesFirst(j: Judgment, c: MatchCase, cs: seq<MatchCase>)
    ensures OkMatchCases(j, [c] + cs) <==> OkMatchCase(j, c) && OkMatchCases(j, cs)
  {
    hide OkMatchCase;
    assert forall i :: 0 <= i < |cs| ==> ([c] + cs)[i + 1] == cs[i];
    assert ([c] + cs)[0] == c;
  }

  lemma {:induction false} MatchOk(
    j: Judgment, target: Proc, cases: seq<Case>, acc: Par, cx: Context, st: State, r: Out)
    requires Ready(cx, st) && NormMatch(target, cases, acc, cx, st) == Ok(r)
    ensures Grown(st, r.st)
    ensures Yields(j, FitsProc(Within(j), target) && FitsCases(Within(j), cases), cx, st, r.st,
                   OkPar(j, acc), OkPar(j, r.par))
    decreases 1 + WProc(target) + WCases(cases), 0
  {
    hide NormProc, NormCases, OkPar, OkMatchCases, FitsProc, FitsCases, Yields, Applies, FreeMap.Valid,
         BoundMap.Valid, OkInjections, PrependMatch;
    NilOk(j);
    var t := NormProc(target, Nil, cx, st).value;
    ProcOk(j, target, Nil, cx, st, t);
    var cs := NormCases(cases, cx, t.st).value;
    CasesOk(j, cases, cx, t.st, cs);
    PrependMatchOk(j, acc, Match(t.par, cs.cases, cs.connectiveUsed || t.par.connectiveUsed));
    Chain(j, FitsProc(Within(j), target), FitsCases(Within(j), cases), cx, st, t.st, cs.st, true,
          OkPar(j, t.par), OkMatchCases(j, cs.cases));
    OnTop(j, FitsProc(Within(j), target) && FitsCases(Within(j), cases), cx, st, cs.st, OkPar(j, acc),
          OkPar(j, t.par) && OkMatchCases(j, cs.cases));
  }

  lemma {:induction false} CasesOk(j: Judgment, cases: seq<Case>, cx: Context, st: State, r: CaseOuts)
    requires Ready(cx, st) && NormCases(cases, cx, st) == Ok(r)
    ensures Grown(st, r.st)
    ensures Yields(j, FitsCases(Within(j), cases), cx, st, r.st, true, OkMatchCases(j, r.cases))
    decreases WCases(cases), 0
  {
    hide NormProc, OkPar, FitsProc, FreeMap.Valid, BoundMap.Valid;
    if cases != [] {
      assert WCases(cases) == WCase(cases[0]) + WCases(cases[1..]);
      PushReady(cx, st.supply);
      NilOk(PatternOf(j));
      var pat := NormProc(cases[0].pattern, Nil, cx.Push(), State(EmptyFreeMap, st.supply)).value;
      ProcOk(PatternOf(j), cases[0].pattern, Nil, cx.Push(), State(EmptyFreeMap, st.supply), pat);
      var fm, st' := pat.st.free, State(st.free, pat.st.supply);
      AbsorbReady(cx, fm, st');
      var j' := j.Under(fm.nextLevel);
      NilOk(j');
      var body := NormProc(cases[0].body, Nil, cx.AbsorbFree(fm), st').value;
      ProcOk(j', cases[0].body, Nil, cx.AbsorbFree(fm), st', body);
      var rest := NormCases(cases[1..], cx, body.st).value;
      CasesOk(j, cases[1..], cx, body.st, rest);
      assert FitsCases(Within(j), cases) ==> FitsCase(Within(j), cases[0]) && FitsCases(Within(j), cases[1..]);
      PatternImplies(j);
      if OkPar(PatternOf(j), pat.par) { WeakenPar(PatternOf(j), j.InPattern(), pat.par); }
      CasesFirst(j, MatchCase(pat.par, body.par, fm.nextLevel), rest.cases);
      hide OkMatchCases;
    }
  }

  lemma {:induction false} ContrOk(
    j: Judgment, n: Name, formals: seq<Name>, remainder: Remainder, body: Proc, acc: Par, cx: Context, st: State, r: Out)
    requires Ready(cx, st) && NormContr(n, formals, remainder, body, acc, cx, st) == Ok(r)
    ensures Grown(st, r.st)
    ensures Yields(j, FitsName(Within(j), n) && FitsPatterns(Within(j), formals) && FitsProc(Within(j), body), cx, st, r.st,
                   OkPar(j, acc), OkPar(j, r.par))
    decreases WName(n) + WNames(formals) + WProc(body) + 1, 0
  {
    hide NormName, NormNames, FinishContr, OkPar, OkPars, FitsProc, FreeMap.Valid, BoundMap.Valid;
    var name := NormName(n, cx, st).value;
    NameOk(j, n, cx, st, name);
    PushReady(cx, name.st.supply);
    var start := State(EmptyFreeMap, name.st.supply);
    var fs := NormNames(formals, cx.Depth() == 0, cx.Push(), start).value;
    NamesOk(PatternOf(j), formals, cx.Depth() == 0, cx.Push(), start, fs);
    NamesReach(formals, cx.Depth() == 0, cx.Push(), start, fs);
    hide Reaches;
    FinishContrOk(j, name, fs, remainder, body, acc, cx, r);
  }

  lemma {:induction false} FinishContrOk(
    j: Judgment, name: Out, fs: Outs, remainder: Remainder, body: Proc, acc: Par, cx: Context, r: Out)
    requires Ready(cx, name.st) && Grown(State(EmptyFreeMap, 0), fs.st) && Reaches(fs.pars, 0, fs.st.free.nextLevel)
    requires !j.Counted? ==> OkPars(PatternOf(j), fs.pars)
    requires FinishContr(name, fs, remainder, body, acc, cx) == Ok(r)
    ensures Grown(name.st, r.st)
    ensures Yields(j, FitsProc(Within(j), body), cx, name.st, r.st,
                   OkPar(j, acc) && OkPar(j, name.par) && OkPars(PatternOf(j), fs.pars), OkPar(j, r.par))
    decreases WProc(body), 10
  {
    hide NormProc, NormRemainder, OkPar, OkPars, FitsProc, OkReceiveBinds, OkReceiveBind, PrependReceive, Reaches, Counts,
         FreeMap.Valid, BoundMap.Valid;
    var rest := NormRemainder(remainder, fs.st.free).value;
    RemainderOk(j, remainder, fs.st.free, rest);
    var count, st' := rest.free.nextLevel, State(name.st.free, fs.st.supply);
    AbsorbReady(cx, rest.free, st');
    var j' := j.Under(count);
    NilOk(j');
    var b := NormProc(body, Nil, cx.AbsorbFree(rest.free), st').value;
    ProcOk(j', body, Nil, cx.AbsorbFree(rest.free), st', b);
    CountsReached(fs.pars, fs.st.free, remainder, rest);
    if OkPars(PatternOf(j), fs.pars) {
      var bind := ReceiveBind(fs.pars, name.par, rest.v, count);
      OneBindOk(j, bind);
      BuiltReceiveOk(
        j, acc, Receive([bind], b.par, true, false, count, name.par.connectiveUsed || b.par.connectiveUsed));
    }
  }

  lemma OneBindOk(j: Judgment, b: ReceiveBind)
    requires OkPars(PatternOf(j), b.patterns) && j.BindRemainder(b.remainder)
    requires Counts(b.freeCount, b.patterns, b.remainder)
    ensures OkReceiveBind(j, b) <==> OkPar(j, b.source)
    ensures OkReceiveBinds(j, [b]) <==> OkPar(j, b.source)
  {
    hide OkPar, OkPars, Counts;
    PatternImplies(j);
    WeakenPars(PatternOf(j), j.InPattern(), b.patterns);
    assert [b][0] == b;
  }

  lemma BuiltReceiveOk(j: Judgment, acc: Par, r: Receive)
    ensures OkPar(j, PrependReceive(acc, r))
       <==> OkPar(j, acc) && OkReceiveBinds(j, r.binds) && OkPar(j.Under(r.bindCount), r.body)
  {
    hide OkPar, OkReceiveBinds;
    PrependReceiveOk(j, acc, r);
  }

  lemma {:induction false} SugarOk(j: Judgment, p: Proc, acc: Par, cx: Context, st: State, r: Out)
    requires IsSugar(p)
    requires Ready(cx, st) && NormSugar(p, acc, cx, st) == Ok(r)
    ensures Grown(st, r.st)
    ensures Yields(j, FitsProc(Within(j), p), cx, st, r.st, OkPar(j, acc), OkPar(j, r.par))
    decreases WProc(p), 7
  {
    hide NormSendSynch, NormInput, NormLet, NormChoice, OkPar;
    match p
    case PSendSynch(n, data, cont) => SendSynchOk(j, n, data, cont, acc, cx, st, r);
    case PInput(receipts, body) => InputOk(j, receipts, body, acc, cx, st, r);
    case PLet(d, ds, body) => LetOk(j, d, ds, body, acc, cx, st, r);
    case PChoice(branches) => ChoiceOk(j, branches, acc, cx, st, r);
  }

  lemma {:induction false} SendSynchOk(
    j: Judgment, n: Name, data: seq<Proc>, cont: SynchSendCont, acc: Par, cx: Context, st: State, r: Out)
    requires Ready(cx, st) && NormSendSynch(n, data, cont, acc, cx, st) == Ok(r)
    ensures Grown(st, r.st)
    ensures Yields(j, FitsProc(Within(j), PSendSynch(n, data, cont)), cx, st, r.st, OkPar(j, acc), OkPar(j, r.par))
    decreases WProc(PSendSynch(n, data, cont)), 0
  {
    hide NormProc, OkPar, FitsProc, DesugarSendSynch;
    var x := Fresh(st.supply);
    SendSynchWeight(n, data, cont, x);
    if FitsProc(Within(j), PSendSynch(n, data, cont)) { SendSynchFits(Within(j), n, data, cont, x); }
    ProcOk(j, DesugarSendSynch(n, data, cont, x), acc, cx, State(st.free, st.supply + 1), r);
  }

  lemma {:induction false} ChoiceOk(j: Judgment, branches: seq<Branch>, acc: Par, cx: Context, st: State, r: Out)
    requires Ready(cx, st) && NormChoice(branches, acc, cx, st) == Ok(r)
    ensures Grown(st, r.st)
    ensures Yields(j, FitsBranches(Within(j), branches), cx, st, r.st, OkPar(j, acc), OkPar(j, r.par))
    decreases 2 + WBranches(branches), 0
  {
    hide NormProc, OkPar, FitsProc, FitsBranches, DesugarChoice;
    ChoiceWeight(branches);
    if FitsBranches(Within(j), branches) { ChoiceFits(Within(j), branches); }
    ProcOk(j, DesugarChoice(branches), acc, cx, st, r);
  }

  lemma {:induction false} InputOk(
    j: Judgment, receipts: seq<Receipt>, body: Proc, acc: Par, cx: Context, st: State, r: Out)
    requires Ready(cx, st) && NormInput(receipts, body, acc, cx, st) == Ok(r)
    ensures Grown(st, r.st)
    ensures Yields(j, FitsReceipts(Within(j), receipts) && FitsProc(Within(j), body), cx, st, r.st,
                   OkPar(j, acc), OkPar(j, r.par))
    decreases WProc(PInput(receipts, body)), 6
  {
    hide NormProc, NormReceipt, OkPar, FitsProc, FitsReceipt, NestReceipts;
    if |receipts| > 1 {
      NestWeight(receipts, body);
      if FitsReceipts(Within(j), receipts) && FitsProc(Within(j), body) { NestFits(Within(j), receipts, body); }
      ProcOk(j, NestReceipts(receipts, body), acc, cx, st, r);
    } else {
      assert receipts == [receipts[0]];
      OneReceiptWeight(receipts[0], body);
      ReceiptOk(j, receipts[0], body, acc, cx, st, r);
    }
  }

  lemma {:induction false} ReceiptOk(j: Judgment, rc: Receipt, body: Proc, acc: Par, cx: Context, st: State, r: Out)
    requires Ready(cx, st) && NormReceipt(rc, body, acc, cx, st) == Ok(r)
    ensures Grown(st, r.st)
    ensures Yields(j, FitsReceipt(Within(j), rc) && FitsProc(Within(j), body), cx, st, r.st,
                   OkPar(j, acc), OkPar(j, r.par))
    decreases 1 + WReceipt(rc) + WProc(body), 5
  {
    hide NormProc, NormReceive, OkPar, FitsProc, FitsLinears, FitsBinds, SimpleBinds, DesugarComplex, Assemble,
         IsComplex;
    match rc
    case ReceiptLinear(bs) =>
      if IsComplex(bs) {
        var c := DesugarComplex(bs, body, st.supply);
        ComplexWeight(bs, body, st.supply);
        OneReceiptWeight(rc, body);
        if FitsLinears(Within(j), bs) && FitsProc(Within(j), body) { ComplexFits(Within(j), bs, body, st.supply); }
        ProcOk(j, Assemble(c), acc, cx, State(st.free, c.supply), r);
      } else {
        SimpleBindsWeight(bs);
        if FitsLinears(Within(j), bs) { SimpleBindsFits(Within(j), bs); }
        ReceiveOk(j, SimpleBinds(bs), false, false, body, acc, cx, st, r);
      }
    case ReceiptRepeated(bs) => ReceiveOk(j, bs, true, false, body, acc, cx, st, r);
    case ReceiptPeek(bs) => ReceiveOk(j, bs, false, true, body, acc, cx, st, r);
  }

  lemma {:induction false} SourcesOk(j: Judgment, bs: seq<NameBind>, cx: Context, st: State, r: Outs)
    requires Ready(cx, st) && NormSources(bs, cx, st) == Ok(r)
    ensures Grown(st, r.st)
    ensures Yields(j, FitsBinds(Within(j), bs), cx, st, r.st, true, OkPars(j, r.pars))
    decreases WBinds(bs), 0
  {
    hide NormName, OkPar, FitsName;
    if bs != [] {
      assert WBinds(bs) == WBind(bs[0]) + WBinds(bs[1..]);
      var first := NormName(bs[0].source, cx, st).value;
      NameOk(j, bs[0].source, cx, st, first);
      var rest := NormSources(bs[1..], cx, first.st).value;
      SourcesOk(j, bs[1..], cx, first.st, rest);
      assert FitsBinds(Within(j), bs) ==> FitsBind(Within(j), bs[0]) && FitsBinds(Within(j), bs[1..]);
      ParsFirst(j, first.par, rest.pars);
      hide OkPars;
    }
  }

  /** Every bind satisfies `j` if its source does, and comes with a valid free map. */
  ghost predicate BindsFine(j: Judgment, binds: seq<(ReceiveBind, FreeMap)>) {
    forall i :: 0 <= i < |binds| ==> OkReceiveBind(j, binds[i].0)
  }

  ghost predicate MapsValid(binds: seq<(ReceiveBind, FreeMap)>) {
    forall i :: 0 <= i < |binds| ==> binds[i].1.Valid()
  }

  lemma {:induction false} BindsOk(
    j: Judgment, bs: seq<NameBind>, sources: seq<Par>, cx: Context, supply: nat, r: BindOuts)
    requires |sources| == |bs| && NormBinds(bs, sources, cx, supply) == Ok(r)
    ensures MapsValid(r.binds)
    ensures !j.Counted? || (FitsBinds(Within(j), bs) && OkInjections(j, cx.env)) ==>
              (BindsFine(j, r.binds) <==> OkPars(j, sources))
    decreases WBinds(bs), 0
  {
    hide NormNames, NormRemainder, OkPar, FreeMap.Valid, OkReceiveBind, OkInjections, FitsName, Counts, Reaches;
    if bs != [] {
      assert WBinds(bs) == WBind(bs[0]) + WBinds(bs[1..]);
      PushReady(cx, supply);
      var start := State(EmptyFreeMap, supply);
      var ps := NormNames(bs[0].names, cx.Depth() == 0, cx.Push(), start).value;
      NamesOk(PatternOf(j), bs[0].names, cx.Depth() == 0, cx.Push(), start, ps);
      NamesReach(bs[0].names, cx.Depth() == 0, cx.Push(), start, ps);
      var m := NormRemainder(bs[0].remainder, ps.st.free).value;
      RemainderOk(j, bs[0].remainder, ps.st.free, m);
      CountsReached(ps.pars, ps.st.free, bs[0].remainder, m);
      var rest := NormBinds(bs[1..], sources[1..], cx, ps.st.supply).value;
      BindsOk(j, bs[1..], sources[1..], cx, ps.st.supply, rest);
      var first := (ReceiveBind(ps.pars, sources[0], m.v, m.free.nextLevel), m.free);
      assert r.binds == [first] + rest.binds;
      BindsFirst(j, first, rest.binds);
      assert sources == [sources[0]] + sources[1..];
      ParsFirst(j, sources[0], sources[1..]);
      assert FitsBinds(Within(j), bs) ==> FitsBind(Within(j), bs[0]) && FitsBinds(Within(j), bs[1..]);
      hide OkPars, BindsFine, MapsValid;
      if OkPars(PatternOf(j), ps.pars) { OneBindOk(j, first.0); }
    }
  }

  lemma BindsFirst(j: Judgment, b: (ReceiveBind, FreeMap), bs: seq<(ReceiveBind, FreeMap)>)
    ensures BindsFine(j, [b] + bs) <==> OkReceiveBind(j, b.0) && BindsFine(j, bs)
    ensures MapsValid([b] + bs) <==> b.1.Valid() && MapsValid(bs)
  {
    hide OkReceiveBind, FreeMap.Valid;
    assert forall i :: 0 <= i < |bs| ==> ([b] + bs)[i + 1] == bs[i];
    assert ([b] + bs)[0] == b;
  }

  lemma SortedBindsFine(j: Judgment, binds: seq<(ReceiveBind, FreeMap)>)
    ensures BindsFine(j, SortBindsWith(binds)) <==> BindsFine(j, binds)
    ensures MapsValid(binds) ==> MapsValid(SortBindsWith(binds))
  {
    hide Sort, SortReceiveBind, OkReceiveBind, FreeMap.Valid;
    var sorted := SortBindsWith(binds);
    forall i | 0 <= i < |sorted|
      ensures BindsFine(j, binds) ==> OkReceiveBind(j, sorted[i].0)
      ensures MapsValid(binds) ==> sorted[i].1.Valid()
    {
      var k := SortOrigin(ScoreBindsWith(binds), i);
      ReceiveBindScope(j, binds[k].0);
    }
    if BindsFine(j, sorted) {
      forall k | 0 <= k < |binds| ensures OkReceiveBind(j, binds[k].0) {
        var i := SortKeeps(ScoreBindsWith(binds), k);
        assert OkReceiveBind(j, sorted[i].0);
        ReceiveBindScope(j, binds[k].0);
      }
    }
  }

  lemma BindsOfFine(j: Judgment, binds: seq<(ReceiveBind, FreeMap)>)
    ensures OkReceiveBinds(j, BindsOf(binds)) <==> BindsFine(j, binds)
  {
    hide OkReceiveBind;
    if OkReceiveBinds(j, BindsOf(binds)) {
      forall i | 0 <= i < |binds| ensures OkReceiveBind(j, binds[i].0) { assert OkReceiveBind(j, BindsOf(binds)[i]); }
    }
  }

  lemma {:induction false} MergedValid(acc: FreeMap, fms: seq<FreeMap>, r: FreeMap)
    requires acc.Valid() && (forall i :: 0 <= i < |fms| ==> fms[i].Valid())
    requires MergeFreeMaps(acc, fms) == Ok(r)
    ensures r.Valid()
    decreases |fms|
  {
    hide FreeMap.Valid;
    if fms != [] {
      FreeMergeValid(acc, fms[0]);
      MergedValid(acc.Merge(fms[0]), fms[1..], r);
    }
  }

  lemma {:induction false} ReceiveOk(
    j: Judgment, bs: seq<NameBind>, persistent: bool, peek: bool, body: Proc, acc: Par, cx: Context, st: State, r: Out)
    requires Ready(cx, st) && NormReceive(bs, persistent, peek, body, acc, cx, st) == Ok(r)
    ensures Grown(st, r.st)
    ensures Yields(j, FitsBinds(Within(j), bs) && FitsProc(Within(j), body), cx, st, r.st, OkPar(j, acc), OkPar(j, r.par))
    decreases 1 + WBinds(bs) + WProc(body), 4
  {
    hide NormSources, NormBinds, FinishReceive, OkPar, OkPars, BindsFine, MapsValid, FitsProc, FitsBinds,
         FreeMap.Valid, BoundMap.Valid, OkInjections;
    var sources := NormSources(bs, cx, st).value;
    SourcesOk(j, bs, cx, st, sources);
    var binds := NormBinds(bs, sources.pars, cx, sources.st.supply).value;
    BindsOk(j, bs, sources.pars, cx, sources.st.supply, binds);
    FinishReceiveOk(j, sources, binds, persistent, peek, body, acc, cx, r);
  }

  lemma {:induction false} FinishReceiveOk(
    j: Judgment, sources: Outs, binds: BindOuts, persistent: bool, peek: bool, body: Proc, acc: Par, cx: Context, r: Out)
    requires Ready(cx, sources.st) && MapsValid(binds.binds)
    requires FinishReceive(sources, binds, persistent, peek, body, acc, cx) == Ok(r)
    ensures Grown(sources.st, r.st)
    ensures Yields(j, FitsProc(Within(j), body), cx, sources.st, r.st,
                   OkPar(j, acc) && BindsFine(j, binds.binds), OkPar(j, r.par))
    decreases WProc(body), 10
  {
    hide NormProc, SortBindsWith, MergeFreeMaps, RepeatedChannel, OkPar, OkReceiveBind, OkReceiveBinds, BindsFine,
         PrependReceive, FitsProc, FreeMap.Valid, BoundMap.Valid, OkInjections;
    var sorted := SortBindsWith(binds.binds);
    SortedBindsFine(j, binds.binds);
    BindsOfFine(j, sorted);
    var fm := MergeFreeMaps(EmptyFreeMap, FreeMapsOf(sorted)).value;
    EmptyFreeValid();
    MergedValid(EmptyFreeMap, FreeMapsOf(sorted), fm);
    var st' := State(sources.st.free, binds.supply);
    AbsorbReady(cx, fm, st');
    var j' := j.Under(fm.nextLevel);
    NilOk(j');
    var b := NormProc(body, Nil, cx.AbsorbFree(fm), st').value;
    ProcOk(j', body, Nil, cx.AbsorbFree(fm), st', b);
    BuiltReceiveOk(
      j, acc,
      Receive(BindsOf(sorted), b.par, persistent, peek, fm.nextLevel,
              AnyConnectiveUsed(sources.pars) || b.par.connectiveUsed));
  }

  lemma {:induction false} LetOk(j: Judgment, d: Decl, ds: Decls, body: Proc, acc: Par, cx: Context, st: State, r: Out)
    requires Ready(cx, st) && NormLet(d, ds, body, acc, cx, st) == Ok(r)
    ensures Grown(st, r.st)
    ensures Yields(j, FitsDecl(Within(j), d) && FitsDecls(Within(j), ds) && FitsProc(Within(j), body), cx, st, r.st,
                   OkPar(j, acc), OkPar(j, r.par))
    decreases WProc(PLet(d, ds, body)), 0
  {
    hide NormProc, NormLetMatch, OkPar, FitsProc, FitsDecl, FitsDeclSeq, LetContinuation, DesugarConcLet, FreeMap.Valid,
         BoundMap.Valid, OkInjections;
    match ds
    case EmptyDecls => LetMatchOk(j, d, body, acc, cx, st, r);
    case LinearDecls(more) =>
      LetContinuationWeight(d, more, body);
      if FitsDeclSeq(Within(j), more) && FitsProc(Within(j), body) { LetContinuationFits(Within(j), more, body); }
      LetMatchOk(j, d, LetContinuation(more, body), acc, cx, st, r);
    case ConcDecls(more) =>
      ConcLetWeight(d, more, body, st.supply);
      if FitsDecl(Within(j), d) && FitsDeclSeq(Within(j), more) && FitsProc(Within(j), body) {
        ConcLetFits(Within(j), d, more, body, st.supply);
      }
      ProcOk(j, DesugarConcLet([d] + more, body, st.supply), acc, cx, State(st.free, st.supply + 1 + |more|), r);
  }

  lemma {:induction false} LetMatchOk(
    j: Judgment, d: Decl, continuation: Proc, acc: Par, cx: Context, st: State, r: Out)
    requires Ready(cx, st) && NormLetMatch(d, continuation, acc, cx, st) == Ok(r)
    ensures Grown(st, r.st)
    ensures Yields(j, FitsDecl(Within(j), d) && FitsProc(Within(j), continuation), cx, st, r.st,
                   OkPar(j, acc), OkPar(j, r.par))
    decreases 19 + WDecl(d) + WProc(continuation), 0
  {
    hide NormProcs, NormNames, NormRemainder, FinishLet, OkPar, OkPars, FitsProc, FitsProcs, FreeMap.Valid,
         BoundMap.Valid;
    var values := NormProcs(d.procs, cx, st).value;
    ProcsOk(j, d.procs, cx, st, values);
    EmptyFreeValid();
    var rest := NormRemainder(d.remainder, EmptyFreeMap).value;
    RemainderOk(j, d.remainder, EmptyFreeMap, rest);
    PushReady(cx, values.st.supply);
    var start := State(rest.free, values.st.supply);
    var names := NormNames(d.names, false, cx.Push(), start).value;
    NamesOk(PatternOf(j), d.names, false, cx.Push(), start, names);
    FinishLetOk(j, values, rest.v, names, continuation, acc, cx, r);
  }

  lemma {:induction false} FinishLetOk(
    j: Judgment, values: Outs, rest: Option<Var>, names: Outs, continuation: Proc, acc: Par, cx: Context, r: Out)
    requires Ready(cx, values.st) && names.st.free.Valid()
    requires !j.Counted? ==> OkPars(PatternOf(j), names.pars)
    requires FinishLet(values, rest, names, continuation, acc, cx) == Ok(r)
    ensures Grown(values.st, r.st)
    ensures Yields(j, FitsProc(Within(j), continuation), cx, values.st, r.st,
                   OkPar(j, acc) && OkPars(j, values.pars) && OkPars(PatternOf(j), names.pars), OkPar(j, r.par))
    decreases WProc(continuation), 10
  {
    hide NormProc, OkPar, OkPars, FitsProc, FromExpr, PrependMatch, FreeMap.Valid, BoundMap.Valid;
    var fm, st' := names.st.free, State(values.st.free, names.st.supply);
    AbsorbReady(cx, fm, st');
    var j' := j.Under(fm.nextLevel);
    NilOk(j');
    var c := NormProc(continuation, Nil, cx.AbsorbFree(fm), st').value;
    ProcOk(j', continuation, Nil, cx.AbsorbFree(fm), st', c);
    if OkPars(PatternOf(j), names.pars) {
      var value := FromExpr(EList(values.pars, None, AnyConnectiveUsed(values.pars)));
      var pattern := FromExpr(EList(names.pars, rest, true));
      ListParOk(j, values.pars, None, AnyConnectiveUsed(values.pars));
      ListParOk(PatternOf(j), names.pars, rest, true);
      BuiltMatchOk(j, acc, value, pattern, c.par, fm.nextLevel, value.connectiveUsed || c.par.connectiveUsed);
    }
  }

  lemma BuiltMatchOk(j: Judgment, acc: Par, value: Par, pattern: Par, body: Par, count: int, cu: bool)
    requires OkPar(PatternOf(j), pattern)
    ensures OkPar(j, PrependMatch(acc, Match(value, [MatchCase(pattern, body, count)], cu)))
       <==> OkPar(j, acc) && OkPar(j, value) && OkPar(j.Under(count), body)
  {
    hide OkPar;
    PatternImplies(j);
    WeakenPar(PatternOf(j), j.InPattern(), pattern);
    OneCaseOk(j, MatchCase(pattern, body, count));
    PrependMatchOk(j, acc, Match(value, [MatchCase(pattern, body, count)], cu));
  }

  lemma ListParOk(j: Judgment, ps: seq<Par>, r: Option<Var>, cu: bool)
    ensures OkPar(j, FromExpr(EList(ps, r, cu))) <==> OkPars(j, ps) && j.Rest(r)
  {
    hide OkPar, OkPars;
    NilOk(j);
    PrependExprOk(j, Nil, EList(ps, r, cu));
  }

  lemma OneCaseOk(j: Judgment, c: MatchCase)
    ensures OkMatchCases(j, [c]) <==> OkMatchCase(j, c)
  {
    hide OkMatchCase;
    assert [c][0] == c;
  }

  // ----- the compiler

  /** `normalize_term` accepts exactly what leaves no free name, no wildcard and no connective behind; a connective is
      reported before a wildcard, and a wildcard before a free name. */
  lemma TopLevelIff(p: Proc, env: seq<Injection>, supply: nat, r: Out)
    requires NormProc(p, Nil, Context([EmptyBoundMap], env), State(EmptyFreeMap, supply)) == Ok(r)
    ensures NormalizeTerm(p, env, supply)
         == if r.st.free.connectives != [] then Err(TopLevelConnectives)
            else if r.st.free.wildcards != 0 then Err(TopLevelWildcards)
            else if r.st.free.bindings != map[] then Err(TopLevelFreeVariables)
            else Ok(r.par)
  {
    hide NormProc, OkPar;
    var cx, st := Context([EmptyBoundMap], env), State(EmptyFreeMap, supply);
    EmptyFreeValid();
    ProcOk(Below(0), p, Nil, cx, st, r);
    if r.st.free.bindings == map[] { NoBindingsNoLevels(r.st.free); }
  }

  /** Whatever passes `normalize_term` passes the scope check of `ast_to_adt`, sorted or not. */
  lemma CompiledWellScoped(p: Proc, env: seq<Injection>, supply: nat)
    requires NormalizeTerm(p, env, supply).Ok?
    ensures WellScoped(0, NormalizeTerm(p, env, supply).value)
    ensures WellScoped(0, SortPar(NormalizeTerm(p, env, supply).value).term)
  {
    hide NormProc, OkPar, SortPar;
    var cx, st := Context([EmptyBoundMap], env), State(EmptyFreeMap, supply);
    EmptyFreeValid();
    NilOk(ScopedAt(0));
    var r := NormProc(p, Nil, cx, st).value;
    ProcOk(ScopedAt(0), p, Nil, cx, st, r);
    SortKeepsJudgment(ScopedAt(0), r.par);
  }

  /** The scope check of `ast_to_adt` never rejects. */
  lemma ScopeCheckNeverRejects(p: Proc, env: seq<Injection>, supply: nat)
    ensures AstToAdt(p, env, supply) != IllScoped
  {
    hide NormProc, SortPar, NormalizeTerm, WellScoped;
    if NormalizeTerm(p, env, supply).Ok? {
      CompiledWellScoped(p, env, supply);
    }
  }

  /** On a plain program `ast_to_adt` gives the sorted term of `normalize_term`, and refuses only what that refuses. */
  lemma PlainProgramsCompile(p: Proc, env: seq<Injection>, supply: nat)
    requires FitsProc(PlainTrees, p)
    ensures AstToAdt(p, env, supply)
         == match NormalizeTerm(p, env, supply)
            case Ok(par) => Compiled(SortPar(par).term)
            case Err(e) => Refused(e)
  {
    hide NormProc, OkPar, SortPar, FitsProc;
    if NormalizeTerm(p, env, supply).Ok? {
      CompiledWellScoped(p, env, supply);
      var cx, st := Context([EmptyBoundMap], env), State(EmptyFreeMap, supply);
      EmptyFreeValid();
      NilOk(ClosedIn(false));
      var r := NormProc(p, Nil, cx, st).value;
      ProcOk(ClosedIn(false), p, Nil, cx, st, r);
      SortKeepsJudgment(ClosedIn(false), r.par);
    }
  }

  /** The free variables of what `normalize_term` accepts are all inside discarded operands. */
  lemma FreeOnlyInOperands(p: Proc, env: seq<Injection>, supply: nat)
    requires NormalizeTerm(p, env, supply).Ok?
    ensures OkPar(Below(0), NormalizeTerm(p, env, supply).value)
  {
    hide NormProc, OkPar, FitsProc;
    var cx, st := Context([EmptyBoundMap], env), State(EmptyFreeMap, supply);
    EmptyFreeValid();
    NilOk(Below(0));
    ProcOk(Below(0), p, Nil, cx, st, NormProc(p, Nil, cx, st).value);
  }

  /** The closedness check of `ast_to_adt` rejects exactly the programs that `normalize_term` accepts with a free
      variable in an operand of negation or disjunction or in the pattern of a `matches`, in evaluation position. */
  lemma NotClosedIff(p: Proc, env: seq<Injection>, supply: nat)
    ensures AstToAdt(p, env, supply) == NotClosed <==>
              NormalizeTerm(p, env, supply).Ok? && !OkPar(ClosedOperands, NormalizeTerm(p, env, supply).value)
  {
    hide NormalizeTerm, OkPar, SortPar;
    if NormalizeTerm(p, env, supply).Ok? {
      var par := NormalizeTerm(p, env, supply).value;
      CompiledWellScoped(p, env, supply);
      FreeOnlyInOperands(p, env, supply);
      ParSplit(par);
      SortKeepsJudgment(ClosedIn(false), par);
    }
  }

  /** Without map literals, and in an environment without maps, every bind of the output counts its patterns. */
  lemma CompiledCounted(p: Proc, env: seq<Injection>, supply: nat)
    requires FitsProc(MapFree, p) && OkInjections(Counted, env) && NormalizeTerm(p, env, supply).Ok?
    ensures OkPar(Counted, NormalizeTerm(p, env, supply).value)
  {
    hide NormProc, OkPar, FitsProc, OkInjections;
    var cx, st := Context([EmptyBoundMap], env), State(EmptyFreeMap, supply);
    EmptyFreeValid();
    NilOk(Counted);
    ProcOk(Counted, p, Nil, cx, st, NormProc(p, Nil, cx, st).value);
  }

  /** `Nil matches x` passes `normalize_term`, and only the closedness check stops it. */
  lemma MatchesHidesFreeName(x: Ident, env: seq<Injection>, supply: nat)
    ensures NormalizeTerm(PMatches(PNil, PVar(ProcVarVar(x))), env, supply).Ok?
    ensures AstToAdt(PMatches(PNil, PVar(ProcVarVar(x))), env, supply) == NotClosed
  {
    hide NormProc, SortPar, OkPar;
    var p, whole := PMatches(PNil, PVar(ProcVarVar(x))), MatchesPar();
    MatchesNormalized(x, Context([EmptyBoundMap], env), State(EmptyFreeMap, supply));
    CompiledWellScoped(p, env, supply);
    FreeInMatches(whole.exprs[0].right, whole);
    SortKeepsJudgment(ClosedIn(false), whole);
  }

  function MatchesPar(): Par {
    FromExpr(EBinary(Matches, Nil, FromExpr(EVar(FreeVar(0)))))
  }

  lemma MatchesNormalized(x: Ident, cx: Context, st: State)
    ensures NormProc(PMatches(PNil, PVar(ProcVarVar(x))), Nil, cx, st) == Ok(Out(MatchesPar(), st))
  {
    hide NormForm, NormSugar;
    var start := State(EmptyFreeMap, st.supply);
    var p := PMatches(PNil, PVar(ProcVarVar(x)));
    assert NormProc(PVar(ProcVarVar(x)), Nil, cx.Push(), start) == NormProcVar(ProcVarVar(x), Nil, cx.Push(), start);
    assert NormProc(PNil, Nil, cx, st) == Ok(Out(Nil, st));
    assert NormProc(p, Nil, cx, st) == NormOperator(p, Nil, cx, st) == NormMatches(p.l, p.r, Nil, cx, st);
  }

  lemma FreeInMatches(bound: Par, whole: Par)
    requires bound.exprs == [EVar(FreeVar(0))] && whole.exprs == [EBinary(Matches, Nil, bound)]
    ensures !OkPar(ClosedIn(false), whole)
  {
    assert !OkExpr(ClosedIn(false), bound.exprs[0]);
    assert !OkExprs(ClosedIn(false), bound.exprs);
    assert !OkPar(ClosedIn(false), bound);
    assert !OkExpr(ClosedIn(false), whole.exprs[0]);
    assert !OkExprs(ClosedIn(false), whole.exprs);
  }
}
