/** Compilation does not depend on the global counter behind
    `fresh_identifier`: starting the counter `k` higher shifts every fresh identifier
    by `k` throughout the run and leaves the nameless output untouched. */
module FreshNames {
  import opened Orders
  import opened StableSort
  import opened Ast
  import opened ParOps
  import opened Sorter
  import opened ProcAst
  import opened Contexts
  import opened Desugar
  import opened Normalizer
  import opened Renaming

  function ShiftState(k: nat, st: State): State {
    State(ShiftFree(k, st.free), st.supply + k)
  }

  function ShiftContext(k: nat, cx: Context): Context {
    Context(ShiftChain(k, cx.chain), cx.env)
  }

  function ShiftOut(k: nat, r: Result<Out>): Result<Out> {
    match r
    case Ok(o) => Ok(Out(o.par, ShiftState(k, o.st)))
    case Err(e) => Err(e)
  }

  function ShiftOuts(k: nat, r: Result<Outs>): Result<Outs> {
    match r
    case Ok(o) => Ok(Outs(o.pars, ShiftState(k, o.st)))
    case Err(e) => Err(e)
  }

  function ShiftRest(k: nat, r: Result<Rest>): Result<Rest> {
    match r
    case Ok(o) => Ok(Rest(o.v, ShiftFree(k, o.free)))
    case Err(e) => Err(e)
  }

  function ShiftExprOut(k: nat, r: Result<ExprOut>): Result<ExprOut> {
    match r
    case Ok(o) => Ok(ExprOut(o.expr, ShiftState(k, o.st)))
    case Err(e) => Err(e)
  }

  function ShiftKeyValueOuts(k: nat, r: Result<KeyValueOuts>): Result<KeyValueOuts> {
    match r
    case Ok(o) => Ok(KeyValueOuts(o.kvs, o.connectiveUsed, ShiftState(k, o.st)))
    case Err(e) => Err(e)
  }

  function ShiftCaseOuts(k: nat, r: Result<CaseOuts>): Result<CaseOuts> {
    match r
    case Ok(o) => Ok(CaseOuts(o.cases, o.connectiveUsed, ShiftState(k, o.st)))
    case Err(e) => Err(e)
  }

  function ShiftBindMap(k: nat, b: (ReceiveBind, FreeMap)): (ReceiveBind, FreeMap) {
    (b.0, ShiftFree(k, b.1))
  }

  function ShiftBindMaps(k: nat, bs: seq<(ReceiveBind, FreeMap)>): (r: seq<(ReceiveBind, FreeMap)>)
    ensures |r| == |bs| && forall i :: 0 <= i < |bs| ==> r[i] == ShiftBindMap(k, bs[i])
  {
    seq(|bs|, i requires 0 <= i < |bs| => ShiftBindMap(k, bs[i]))
  }

  function ShiftBindOuts(k: nat, r: Result<BindOuts>): Result<BindOuts> {
    match r
    case Ok(o) => Ok(BindOuts(ShiftBindMaps(k, o.binds), o.supply + k))
    case Err(e) => Err(e)
  }

  // ----- contexts

  lemma PushShift(k: nat, cx: Context)
    ensures ShiftContext(k, cx).Push() == ShiftContext(k, cx.Push())
    ensures ShiftFree(k, EmptyFreeMap) == EmptyFreeMap
    ensures ShiftContext(k, cx).Depth() == cx.Depth()
  {
    assert ShiftKeys<BoundContext>(k, map[]) == map[];
    assert ShiftKeys<FreeContext>(k, map[]) == map[];
    assert ShiftContext(k, cx).Push().chain == ShiftChain(k, cx.Push().chain);
  }

  lemma AbsorbFreeShift(k: nat, cx: Context, fm: FreeMap)
    ensures ShiftContext(k, cx).AbsorbFree(ShiftFree(k, fm)) == ShiftContext(k, cx.AbsorbFree(fm))
  {
    AbsorbShift(k, cx.chain[0], fm);
    assert ShiftContext(k, cx).AbsorbFree(ShiftFree(k, fm)).chain == ShiftChain(k, cx.AbsorbFree(fm).chain);
  }

  lemma ContextPutAllShift(k: nat, cx: Context, xs: seq<Ident>)
    ensures ShiftContext(k, cx).PutAll(ShiftIds(k, xs)) == ShiftContext(k, cx.PutAll(xs))
  {
    PutAllShift(k, cx.chain[0], xs, NameSort);
    assert ShiftContext(k, cx).PutAll(ShiftIds(k, xs)).chain == ShiftChain(k, cx.PutAll(xs).chain);
  }

  lemma GetShift(k: nat, cx: Context, x: Ident)
    ensures ShiftContext(k, cx).Get(ShiftId(k, x)) == cx.Get(x)
  {
  }

  lemma SortDeclsShift(k: nat, ds: seq<NameDecl>)
    ensures SortDecls(ShiftNameDecls(k, ds)) == ShiftNameDecls(k, SortDecls(ds))
  {
    hide Sort;
    SortMapped(d => ShiftNameDecl(k, d), ScoreDecls(ds), ScoreDecls(ShiftNameDecls(k, ds)));
  }

  lemma {:induction false} DeclUrisShift(k: nat, ds: seq<NameDecl>)
    ensures DeclUris(ShiftNameDecls(k, ds)) == DeclUris(ds)
    ensures DeclNames(ShiftNameDecls(k, ds)) == ShiftIds(k, DeclNames(ds))
    decreases |ds|
  {
    if ds != [] {
      assert ShiftNameDecls(k, ds)[1..] == ShiftNameDecls(k, ds[1..]);
      DeclUrisShift(k, ds[1..]);
    }
  }

  lemma SortBindsShift(k: nat, bs: seq<(ReceiveBind, FreeMap)>)
    ensures SortBindsWith(ShiftBindMaps(k, bs)) == ShiftBindMaps(k, SortBindsWith(bs))
  {
    hide Sort, SortReceiveBind;
    SortMapped((b: (ReceiveBind, FreeMap)) => ShiftBindMap(k, b), ScoreBindsWith(bs), ScoreBindsWith(ShiftBindMaps(k, bs)));
  }

  function ShiftFrees(k: nat, fms: seq<FreeMap>): (r: seq<FreeMap>)
    ensures |r| == |fms| && forall i :: 0 <= i < |fms| ==> r[i] == ShiftFree(k, fms[i])
  {
    seq(|fms|, i requires 0 <= i < |fms| => ShiftFree(k, fms[i]))
  }

  lemma BindMapsShift(k: nat, bs: seq<(ReceiveBind, FreeMap)>)
    ensures BindsOf(ShiftBindMaps(k, bs)) == BindsOf(bs)
    ensures FreeMapsOf(ShiftBindMaps(k, bs)) == ShiftFrees(k, FreeMapsOf(bs))
  {
  }

  lemma {:induction false} MergeFreeMapsShift(k: nat, acc: FreeMap, fms: seq<FreeMap>)
    ensures MergeFreeMaps(ShiftFree(k, acc), ShiftFrees(k, fms))
         == match MergeFreeMaps(acc, fms) case Ok(fm) => Ok(ShiftFree(k, fm)) case Err(e) => Err(e)
    decreases |fms|
  {
    hide ShiftFree, FreeMap.Merge, FreeMap.Shadows;
    if fms != [] {
      FreeMergeShift(k, acc, fms[0]);
      assert ShiftFrees(k, fms)[1..] == ShiftFrees(k, fms[1..]);
      MergeFreeMapsShift(k, acc.Merge(fms[0]), fms[1..]);
    }
  }

  // ----- variables and remainders

  lemma ProcVarFresh(k: nat, v: ProcVar, acc: Par, cx: Context, st: State)
    ensures NormProcVar(ShiftVar(k, v), acc, ShiftContext(k, cx), ShiftState(k, st))
         == ShiftOut(k, NormProcVar(v, acc, cx, st))
  {
    hide ShiftKeys, ShiftChain, PrependExpr, WithConnectiveUsed;
    if v.ProcVarVar? {
      GetShift(k, cx, v.x);
      FreePutShift(k, st.free, v.x, ProcSort);
      assert Origin(k, ShiftId(k, v.x)) == v.x;
    }
  }

  lemma NameVarFresh(k: nat, x: Ident, cx: Context, st: State)
    ensures NormNameVar(ShiftId(k, x), ShiftContext(k, cx), ShiftState(k, st)) == ShiftOut(k, NormNameVar(x, cx, st))
  {
    hide ShiftKeys, ShiftChain, PrependExpr;
    GetShift(k, cx, x);
    FreePutShift(k, st.free, x, NameSort);
    assert Origin(k, ShiftId(k, x)) == x;
  }

  lemma VarRefFresh(k: nat, kind: VarRefKind, x: Ident, acc: Par, cx: Context, st: State)
    ensures NormVarRef(kind, ShiftId(k, x), acc, ShiftContext(k, cx), ShiftState(k, st))
         == ShiftOut(k, NormVarRef(kind, x, acc, cx, st))
  {
    hide ChainFind, ShiftChain, PrependConnective;
    ChainFindShift(k, cx.chain, x);
  }

  lemma RemainderFresh(k: nat, r: Remainder, fm: FreeMap)
    ensures NormRemainder(ShiftRemainder(k, r), ShiftFree(k, fm)) == ShiftRest(k, NormRemainder(r, fm))
  {
    hide ShiftKeys;
    if r.RemainderVar? && r.v.ProcVarVar? {
      FreePutShift(k, fm, r.v.x, ProcSort);
      assert Origin(k, ShiftId(k, r.v.x)) == r.v.x;
    }
  }

  // ----- the induction: what the subterms give, then one step per form

  /** The shifted inputs give the shifted result of normalizing `p`. */
  ghost predicate Moves(k: nat, p: Proc, p': Proc, acc: Par, cx: Context, cx': Context, st: State, st': State) {
    NormProc(p', acc, cx', st') == ShiftOut(k, NormProc(p, acc, cx, st))
  }

  ghost predicate NamesMove(
    k: nat, ns: seq<Name>, ns': seq<Name>, guarded: bool, cx: Context, cx': Context, st: State, st': State)
  {
    NormNames(ns', guarded, cx', st') == ShiftOuts(k, NormNames(ns, guarded, cx, st))
  }

  ghost predicate RemainderMoves(k: nat, r: Remainder, r': Remainder, fm: FreeMap, fm': FreeMap) {
    NormRemainder(r', fm') == ShiftRest(k, NormRemainder(r, fm))
  }

  lemma {:induction false} NameFresh(k: nat, n: Name, cx: Context, st: State)
    ensures NormName(ShiftName(k, n), ShiftContext(k, cx), ShiftState(k, st)) == ShiftOut(k, NormName(n, cx, st))
    decreases WName(n), 0
  {
    hide NormProc, NormNameVar, ShiftProc, ShiftChain, ShiftKeys;
    match n
    case NameWildcard =>
    case NameVar(x) => NameVarFresh(k, x, cx, st);
    case NameQuote(p) => ProcFresh(k, p, Nil, cx, st);
  }

  /** Raising the counter by `k` shifts the state by `k` and keeps the term. */
  lemma {:induction false} ProcFresh(k: nat, p: Proc, acc: Par, cx: Context, st: State)
    ensures NormProc(ShiftProc(k, p), acc, ShiftContext(k, cx), ShiftState(k, st))
         == ShiftOut(k, NormProc(p, acc, cx, st))
    decreases WProc(p), 9
  {
    hide NormOperator, NormSugar, NormForm, ShiftProc, ShiftContext, ShiftState, ShiftOut, IsOperator, IsForm, IsSugar;
    KindShift(k, p);
    if IsOperator(p) {
      OperatorFresh(k, p, acc, cx, st);
    } else if IsForm(p) {
      FormFresh(k, p, acc, cx, st);
    } else if IsSugar(p) {
      SugarFresh(k, p, acc, cx, st);
    } else {
      BasicFresh(k, p, acc, cx, st);
    }
  }

  lemma KindShift(k: nat, p: Proc)
    ensures IsOperator(ShiftProc(k, p)) == IsOperator(p)
    ensures IsForm(ShiftProc(k, p)) == IsForm(p)
    ensures IsSugar(ShiftProc(k, p)) == IsSugar(p)
  {
  }

  lemma {:induction false} BasicFresh(k: nat, p: Proc, acc: Par, cx: Context, st: State)
    requires !IsOperator(p) && !IsForm(p) && !IsSugar(p)
    ensures NormProc(ShiftProc(k, p), acc, ShiftContext(k, cx), ShiftState(k, st))
         == ShiftOut(k, NormProc(p, acc, cx, st))
    decreases WProc(p), 8
  {
    hide NormEval, NormPPar, NormSend, NormCollect, NormOperator, NormSugar, NormForm, NormProcVar, NormVarRef,
         ShiftContext, ShiftState;
    match p
    case PExprs(q) => ProcFresh(k, q, acc, cx, st);
    case PEval(n) => EvalFresh(k, n, acc, cx, st);
    case PPar(l, r) => ParFresh(k, l, r, acc, cx, st);
    case PSend(n, multiple, data) => SendFresh(k, n, multiple, data, acc, cx, st);
    case PCollect(c) => CollectFresh(k, c, acc, cx, st);
    case _ => LeafFresh(k, p, acc, cx, st);
  }

  lemma LeafFresh(k: nat, p: Proc, acc: Par, cx: Context, st: State)
    requires p.PGround? || p.PNil? || p.PSimpleType? || p.PVar? || p.PVarRef?
    ensures NormProc(ShiftProc(k, p), acc, ShiftContext(k, cx), ShiftState(k, st))
         == ShiftOut(k, NormProc(p, acc, cx, st))
  {
    hide NormOperator, NormSugar, NormForm, NormProcVar, NormVarRef, ShiftContext, ShiftState;
    match p
    case PGround(_) =>
    case PNil =>
    case PSimpleType(_) =>
    case PVar(v) => ProcVarFresh(k, v, acc, cx, st);
    case PVarRef(kind, x) => VarRefFresh(k, kind, x, acc, cx, st);
  }

  lemma {:induction false} OperatorFresh(k: nat, p: Proc, acc: Par, cx: Context, st: State)
    requires IsOperator(p)
    ensures IsOperator(ShiftProc(k, p))
    ensures NormOperator(ShiftProc(k, p), acc, ShiftContext(k, cx), ShiftState(k, st))
         == ShiftOut(k, NormOperator(p, acc, cx, st))
    decreases WProc(p), 8
  {
    hide NormNot, NormNeg, NormBinary, NormMatches, NormNegation, NormConjunction, NormDisjunction, NormMethod,
         ShiftContext, ShiftState;
    match p
    case PNot(q) => NotFresh(k, q, acc, cx, st);
    case PNeg(q) => NotFresh(k, q, acc, cx, st);
    case PBinary(op, l, r) => BinaryFresh(k, op, l, r, acc, cx, st);
    case PMatches(l, r) => MatchesFresh(k, l, r, acc, cx, st);
    case PNegation(q) => NegationFresh(k, q, acc, cx, st);
    case PConjunction(l, r) => ConjunctionFresh(k, l, r, acc, cx, st);
    case PDisjunction(l, r) => DisjunctionFresh(k, l, r, acc, cx, st);
    case PMethod(target, name, args) => MethodFresh(k, target, name, args, acc, cx, st);
  }

  lemma {:induction false} EvalFresh(k: nat, n: Name, acc: Par, cx: Context, st: State)
    ensures NormEval(ShiftName(k, n), acc, ShiftContext(k, cx), ShiftState(k, st))
         == ShiftOut(k, NormEval(n, acc, cx, st))
    decreases WName(n), 1
  {
    hide NormName, ShiftName, ShiftContext, ShiftState;
    NameFresh(k, n, cx, st);
  }

  lemma {:induction false} ParFresh(k: nat, l: Proc, r: Proc, acc: Par, cx: Context, st: State)
    ensures NormPPar(ShiftProc(k, l), ShiftProc(k, r), acc, ShiftContext(k, cx), ShiftState(k, st))
         == ShiftOut(k, NormPPar(l, r, acc, cx, st))
    decreases 1 + WProc(l) + WProc(r), 0
  {
    hide NormProc, NormPPar, ShiftProc, ShiftContext, ShiftState, ShiftOut;
    ProcFresh(k, l, acc, cx, st);
    if NormProc(l, acc, cx, st).Ok? {
      var left := NormProc(l, acc, cx, st).value;
      ProcFresh(k, r, left.par, cx, left.st);
    }
    ParStep(k, l, r, acc, cx, st, ShiftProc(k, l), ShiftProc(k, r), ShiftContext(k, cx), ShiftState(k, st));
  }

  lemma ParStep(k: nat, l: Proc, r: Proc, acc: Par, cx: Context, st: State,
                l': Proc, r': Proc, cx': Context, st': State)
    requires Moves(k, l, l', acc, cx, cx', st, st')
    requires NormProc(l, acc, cx, st).Ok? ==>
               var left := NormProc(l, acc, cx, st).value;
               Moves(k, r, r', left.par, cx, cx', left.st, ShiftState(k, left.st))
    ensures NormPPar(l', r', acc, cx', st') == ShiftOut(k, NormPPar(l, r, acc, cx, st))
  {
    hide NormProc, ShiftState;
  }

  lemma {:induction false} NotFresh(k: nat, p: Proc, acc: Par, cx: Context, st: State)
    ensures NormNot(ShiftProc(k, p), acc, ShiftContext(k, cx), ShiftState(k, st))
         == ShiftOut(k, NormNot(p, acc, cx, st))
    ensures NormNeg(ShiftProc(k, p), acc, ShiftContext(k, cx), ShiftState(k, st))
         == ShiftOut(k, NormNeg(p, acc, cx, st))
    decreases 1 + WProc(p), 0
  {
    hide NormProc, ShiftProc, ShiftContext, ShiftState;
    ProcFresh(k, p, Nil, cx, st);
  }

  lemma {:induction false} BinaryFresh(k: nat, op: SourceOp, l: Proc, r: Proc, acc: Par, cx: Context, st: State)
    ensures NormBinary(op, ShiftProc(k, l), ShiftProc(k, r), acc, ShiftContext(k, cx), ShiftState(k, st))
         == ShiftOut(k, NormBinary(op, l, r, acc, cx, st))
    decreases 1 + WProc(l) + WProc(r), 0
  {
    hide NormProc, NormBinary, ShiftProc, ShiftContext, ShiftState, ShiftOut;
    ProcFresh(k, l, Nil, cx, st);
    if NormProc(l, Nil, cx, st).Ok? {
      ProcFresh(k, r, Nil, cx, NormProc(l, Nil, cx, st).value.st);
    }
    BinaryStep(k, op, l, r, acc, cx, st, ShiftProc(k, l), ShiftProc(k, r), ShiftContext(k, cx), ShiftState(k, st));
  }

  lemma BinaryStep(k: nat, op: SourceOp, l: Proc, r: Proc, acc: Par, cx: Context, st: State,
                   l': Proc, r': Proc, cx': Context, st': State)
    requires Moves(k, l, l', Nil, cx, cx', st, st')
    requires NormProc(l, Nil, cx, st).Ok? ==>
               var mid := NormProc(l, Nil, cx, st).value.st;
               Moves(k, r, r', Nil, cx, cx', mid, ShiftState(k, mid))
    ensures NormBinary(op, l', r', acc, cx', st') == ShiftOut(k, NormBinary(op, l, r, acc, cx, st))
  {
    hide NormProc, PrependExpr, ShiftState;
  }

  lemma {:induction false} MatchesFresh(k: nat, l: Proc, r: Proc, acc: Par, cx: Context, st: State)
    ensures NormMatches(ShiftProc(k, l), ShiftProc(k, r), acc, ShiftContext(k, cx), ShiftState(k, st))
         == ShiftOut(k, NormMatches(l, r, acc, cx, st))
    decreases 1 + WProc(l) + WProc(r), 0
  {
    hide NormProc, NormMatches, ShiftProc, ShiftContext, ShiftFree, ShiftOut, Context.Push;
    PushShift(k, cx);
    ProcFresh(k, l, Nil, cx, st);
    if NormProc(l, Nil, cx, st).Ok? {
      var start := State(EmptyFreeMap, NormProc(l, Nil, cx, st).value.st.supply);
      ProcFresh(k, r, Nil, cx.Push(), start);
    }
    MatchesStep(k, l, r, acc, cx, st, ShiftProc(k, l), ShiftProc(k, r), ShiftContext(k, cx), ShiftState(k, st));
  }

  lemma MatchesStep(k: nat, l: Proc, r: Proc, acc: Par, cx: Context, st: State,
                    l': Proc, r': Proc, cx': Context, st': State)
    requires Moves(k, l, l', Nil, cx, cx', st, st')
    requires NormProc(l, Nil, cx, st).Ok? ==>
               var supply := NormProc(l, Nil, cx, st).value.st.supply;
               Moves(k, r, r', Nil, cx.Push(), cx'.Push(), State(EmptyFreeMap, supply), State(EmptyFreeMap, supply + k))
    ensures NormMatches(l', r', acc, cx', st') == ShiftOut(k, NormMatches(l, r, acc, cx, st))
  {
    hide NormProc, PrependExpr, ShiftFree, Context.Push;
  }

  lemma {:induction false} NegationFresh(k: nat, p: Proc, acc: Par, cx: Context, st: State)
    ensures NormNegation(ShiftProc(k, p), acc, ShiftContext(k, cx), ShiftState(k, st))
         == ShiftOut(k, NormNegation(p, acc, cx, st))
    decreases 1 + WProc(p), 0
  {
    hide NormProc, ShiftProc, ShiftContext, ShiftKeys;
    PushShift(k, cx);
    ProcFresh(k, p, Nil, cx, State(EmptyFreeMap, st.supply));
  }

  lemma {:induction false} ConjunctionFresh(k: nat, l: Proc, r: Proc, acc: Par, cx: Context, st: State)
    ensures NormConjunction(ShiftProc(k, l), ShiftProc(k, r), acc, ShiftContext(k, cx), ShiftState(k, st))
         == ShiftOut(k, NormConjunction(l, r, acc, cx, st))
    decreases 1 + WProc(l) + WProc(r), 0
  {
    hide NormProc, NormConjunction, ShiftProc, ShiftContext, ShiftState, ShiftOut;
    ProcFresh(k, l, Nil, cx, st);
    if NormProc(l, Nil, cx, st).Ok? {
      ProcFresh(k, r, Nil, cx, NormProc(l, Nil, cx, st).value.st);
    }
    ConjunctionStep(k, l, r, acc, cx, st, ShiftProc(k, l), ShiftProc(k, r), ShiftContext(k, cx), ShiftState(k, st));
  }

  lemma ConjunctionStep(k: nat, l: Proc, r: Proc, acc: Par, cx: Context, st: State,
                        l': Proc, r': Proc, cx': Context, st': State)
    requires Moves(k, l, l', Nil, cx, cx', st, st')
    requires NormProc(l, Nil, cx, st).Ok? ==>
               var mid := NormProc(l, Nil, cx, st).value.st;
               Moves(k, r, r', Nil, cx, cx', mid, ShiftState(k, mid))
    ensures NormConjunction(l', r', acc, cx', st') == ShiftOut(k, NormConjunction(l, r, acc, cx, st))
  {
    hide NormProc, PrependConnective, Conjoin, ShiftKeys;
  }

  lemma {:induction false} DisjunctionFresh(k: nat, l: Proc, r: Proc, acc: Par, cx: Context, st: State)
    ensures NormDisjunction(ShiftProc(k, l), ShiftProc(k, r), acc, ShiftContext(k, cx), ShiftState(k, st))
         == ShiftOut(k, NormDisjunction(l, r, acc, cx, st))
    decreases 1 + WProc(l) + WProc(r), 0
  {
    hide NormProc, NormDisjunction, ShiftProc, ShiftContext, ShiftFree, ShiftOut;
    PushShift(k, cx);
    var start := State(EmptyFreeMap, st.supply);
    ProcFresh(k, l, Nil, cx, start);
    if NormProc(l, Nil, cx, start).Ok? {
      ProcFresh(k, r, Nil, cx, State(EmptyFreeMap, NormProc(l, Nil, cx, start).value.st.supply));
    }
    DisjunctionStep(k, l, r, acc, cx, st, ShiftProc(k, l), ShiftProc(k, r), ShiftContext(k, cx));
  }

  lemma DisjunctionStep(k: nat, l: Proc, r: Proc, acc: Par, cx: Context, st: State, l': Proc, r': Proc, cx': Context)
    requires Moves(k, l, l', Nil, cx, cx', State(EmptyFreeMap, st.supply), State(EmptyFreeMap, st.supply + k))
    requires NormProc(l, Nil, cx, State(EmptyFreeMap, st.supply)).Ok? ==>
               var supply := NormProc(l, Nil, cx, State(EmptyFreeMap, st.supply)).value.st.supply;
               Moves(k, r, r', Nil, cx, cx', State(EmptyFreeMap, supply), State(EmptyFreeMap, supply + k))
    ensures NormDisjunction(l', r', acc, cx', ShiftState(k, st)) == ShiftOut(k, NormDisjunction(l, r, acc, cx, st))
  {
    hide NormProc, PrependConnective, Disjoin, ShiftKeys;
  }

  lemma {:induction false} ProcsFresh(k: nat, ps: seq<Proc>, cx: Context, st: State)
    ensures NormProcs(ShiftProcs(k, ps), ShiftContext(k, cx), ShiftState(k, st)) == ShiftOuts(k, NormProcs(ps, cx, st))
    decreases WProcs(ps), 0
  {
    hide NormProc, ShiftProc, ShiftContext, ShiftState;
    if ps != [] {
      assert ShiftProcs(k, ps)[1..] == ShiftProcs(k, ps[1..]);
      ProcFresh(k, ps[0], Nil, cx, st);
      match NormProc(ps[0], Nil, cx, st)
      case Ok(first) => ProcsFresh(k, ps[1..], cx, first.st);
      case Err(_) =>
    }
  }

  lemma {:induction false} ProcsBackwardFresh(k: nat, ps: seq<Proc>, cx: Context, st: State)
    ensures NormProcsBackward(ShiftProcs(k, ps), ShiftContext(k, cx), ShiftState(k, st))
         == ShiftOuts(k, NormProcsBackward(ps, cx, st))
    decreases WProcs(ps), 0
  {
    hide NormProc, ShiftProc, ShiftContext, ShiftState;
    if ps != [] {
      var init, last := ps[..|ps| - 1], ps[|ps| - 1];
      assert ps == init + [last];
      WProcsAppend(init, last);
      assert ShiftProcs(k, ps)[..|ps| - 1] == ShiftProcs(k, init);
      ProcFresh(k, last, Nil, cx, st);
      match NormProc(last, Nil, cx, st)
      case Ok(first) => ProcsBackwardFresh(k, init, cx, first.st);
      case Err(_) =>
    }
  }

  lemma {:induction false} NamesFresh(k: nat, ns: seq<Name>, guarded: bool, cx: Context, st: State)
    ensures NormNames(ShiftNames(k, ns), guarded, ShiftContext(k, cx), ShiftState(k, st))
         == ShiftOuts(k, NormNames(ns, guarded, cx, st))
    decreases WNames(ns), 0
  {
    hide NormName, ShiftName, ShiftContext, ShiftKeys;
    if ns != [] {
      assert ShiftNames(k, ns)[1..] == ShiftNames(k, ns[1..]);
      NameFresh(k, ns[0], cx, st);
      match NormName(ns[0], cx, st)
      case Ok(first) => NamesFresh(k, ns[1..], guarded, cx, first.st);
      case Err(_) =>
    }
  }

  lemma {:induction false} SendFresh(k: nat, n: Name, multiple: bool, data: seq<Proc>, acc: Par, cx: Context, st: State)
    ensures NormSend(ShiftName(k, n), multiple, ShiftProcs(k, data), acc, ShiftContext(k, cx), ShiftState(k, st))
         == ShiftOut(k, NormSend(n, multiple, data, acc, cx, st))
    decreases 1 + WName(n) + WProcs(data), 0
  {
    hide NormName, NormProcsBackward, ShiftName, ShiftProcs, ShiftContext, ShiftState;
    NameFresh(k, n, cx, st);
    match NormName(n, cx, st)
    case Ok(name) => ProcsBackwardFresh(k, data, cx, name.st);
    case Err(_) =>
  }

  lemma {:induction false} MethodFresh(
    k: nat, target: Proc, name: string, args: seq<Proc>, acc: Par, cx: Context, st: State)
    ensures NormMethod(ShiftProc(k, target), name, ShiftProcs(k, args), acc, ShiftContext(k, cx), ShiftState(k, st))
         == ShiftOut(k, NormMethod(target, name, args, acc, cx, st))
    decreases 1 + WProc(target) + WProcs(args), 0
  {
    hide NormProc, NormProcsBackward, ShiftProc, ShiftProcs, ShiftContext, ShiftState;
    ProcFresh(k, target, Nil, cx, st);
    match NormProc(target, Nil, cx, st)
    case Ok(t) => ProcsBackwardFresh(k, args, cx, t.st);
    case Err(_) =>
  }

  lemma {:induction false} NewFresh(k: nat, names: seq<NameDecl>, body: Proc, acc: Par, cx: Context, st: State)
    ensures NormNew(ShiftNameDecls(k, names), ShiftProc(k, body), acc, ShiftContext(k, cx), ShiftState(k, st))
         == ShiftOut(k, NormNew(names, body, acc, cx, st))
    decreases 1 + WProc(body), 0
  {
    hide NormProc, ShiftProc, ShiftChain, ShiftState, SortDecls, DeclUris, DeclNames, Context.PutAll;
    SortDeclsShift(k, names);
    var sorted := SortDecls(names);
    DeclUrisShift(k, sorted);
    ContextPutAllShift(k, cx, DeclNames(sorted));
    ProcFresh(k, body, Nil, cx.PutAll(DeclNames(sorted)), st);
  }

  lemma {:induction false} BundleFresh(k: nat, kind: BundleKind, body: Proc, acc: Par, cx: Context, st: State)
    ensures NormBundle(kind, ShiftProc(k, body), acc, ShiftContext(k, cx), ShiftState(k, st))
         == ShiftOut(k, NormBundle(kind, body, acc, cx, st))
    decreases 1 + WProc(body), 0
  {
    hide NormProc, FinishBundle, ShiftProc, ShiftContext, ShiftState;
    ProcFresh(k, body, Nil, cx, st);
    if NormProc(body, Nil, cx, st).Ok? {
      BundleStep(k, kind, NormProc(body, Nil, cx, st).value, acc, st);
    }
  }

  lemma BundleStep(k: nat, kind: BundleKind, body: Out, acc: Par, st: State)
    ensures FinishBundle(kind, Out(body.par, ShiftState(k, body.st)), acc, ShiftState(k, st))
         == ShiftOut(k, FinishBundle(kind, body, acc, st))
  {
    hide ShiftKeys, MergeBundles, SingleBundle;
    NoKeysShift(k, body.st.free.bindings);
  }

  lemma NoKeysShift<V>(k: nat, m: map<Ident, V>)
    ensures (ShiftKeys(k, m) == map[]) == (m == map[])
  {
    hide ShiftKeys;
    if m != map[] {
      var x :| x in m;
      assert ShiftId(k, x) in ShiftKeys(k, m);
    }
  }

  lemma {:induction false} CollectFresh(k: nat, c: Collection, acc: Par, cx: Context, st: State)
    ensures NormCollect(ShiftCollection(k, c), acc, ShiftContext(k, cx), ShiftState(k, st))
         == ShiftOut(k, NormCollect(c, acc, cx, st))
    decreases 1 + WCollection(c), 0
  {
    hide NormCollection, ShiftCollection, ShiftContext, ShiftState;
    CollectionFresh(k, c, cx, st);
  }

  lemma {:induction false} CollectionFresh(k: nat, c: Collection, cx: Context, st: State)
    ensures NormCollection(ShiftCollection(k, c), ShiftContext(k, cx), ShiftState(k, st))
         == ShiftExprOut(k, NormCollection(c, cx, st))
    decreases WCollection(c), 1
  {
    hide NormProcs, NormKeyValues, NormRemainder, ShiftProc, ShiftProcs, ShiftKeyValues, ShiftRemainder,
         ShiftContext, ShiftFree;
    if c.CollectTuple? {
      assert ([c.first] + c.rest)[1..] == c.rest;
      PrependProcsShift(k, c.first, c.rest);
      ProcsFresh(k, [c.first] + c.rest, cx, st);
    } else {
      RemainderFresh(k, c.remainder, st.free);
      if NormRemainder(c.remainder, st.free).Ok? {
        var st' := st.(free := NormRemainder(c.remainder, st.free).value.free);
        if c.CollectMap? { KeyValuesFresh(k, c.kvs, cx, st'); } else { ProcsFresh(k, c.ps, cx, st'); }
      }
    }
  }

  lemma {:induction false} KeyValuesFresh(k: nat, kvs: seq<KeyValuePair>, cx: Context, st: State)
    ensures NormKeyValues(ShiftKeyValues(k, kvs), ShiftContext(k, cx), ShiftState(k, st))
         == ShiftKeyValueOuts(k, NormKeyValues(kvs, cx, st))
    decreases WKeyValues(kvs), 0
  {
    hide NormProc, ShiftProc, ShiftContext, ShiftState;
    if kvs != [] {
      assert WKeyValues(kvs) == WKeyValue(kvs[0]) + WKeyValues(kvs[1..]);
      assert ShiftKeyValues(k, kvs)[1..] == ShiftKeyValues(k, kvs[1..]);
      ProcFresh(k, kvs[0].key, Nil, cx, st);
      if NormProc(kvs[0].key, Nil, cx, st).Ok? {
        var key := NormProc(kvs[0].key, Nil, cx, st).value;
        ProcFresh(k, kvs[0].value, Nil, cx, key.st);
        if NormProc(kvs[0].value, Nil, cx, key.st).Ok? {
          KeyValuesFresh(k, kvs[1..], cx, NormProc(kvs[0].value, Nil, cx, key.st).value.st);
        }
      }
    }
  }

  lemma {:induction false} FormFresh(k: nat, p: Proc, acc: Par, cx: Context, st: State)
    requires IsForm(p)
    ensures IsForm(ShiftProc(k, p))
    ensures NormForm(ShiftProc(k, p), acc, ShiftContext(k, cx), ShiftState(k, st))
         == ShiftOut(k, NormForm(p, acc, cx, st))
    decreases WProc(p), 8
  {
    hide NormNew, NormBundle, NormIf, NormMatch, NormContr, ShiftContext, ShiftState;
    match p
    case PNew(names, body) => NewFresh(k, names, body, acc, cx, st);
    case PBundle(kind, body) => BundleFresh(k, kind, body, acc, cx, st);
    case PIf(cond, body) => IfFresh(k, cond, body, PNil, acc, cx, st);
    case PIfElse(cond, body, otherwise) => IfFresh(k, cond, body, otherwise, acc, cx, st);
    case PMatch(target, cases) => MatchFresh(k, target, cases, acc, cx, st);
    case PContr(n, formals, remainder, body) => ContrFresh(k, n, formals, remainder, body, acc, cx, st);
  }

  lemma {:induction false} IfFresh(k: nat, cond: Proc, body: Proc, otherwise: Proc, acc: Par, cx: Context, st: State)
    ensures NormIf(ShiftProc(k, cond), ShiftProc(k, body), ShiftProc(k, otherwise), acc, ShiftContext(k, cx),
                   ShiftState(k, st))
         == ShiftOut(k, NormIf(cond, body, otherwise, acc, cx, st))
    decreases WProc(cond) + WProc(body) + WProc(otherwise) + 1, 0
  {
    hide NormProc, NormIf, ShiftProc, ShiftContext, ShiftState, ShiftOut, WProc, Moves;
    ProcMoves(k, cond, acc, cx, st);
    if NormProc(cond, acc, cx, st).Ok? {
      var mid := NormProc(cond, acc, cx, st).value.st;
      ProcMoves(k, body, Nil, cx, mid);
      if NormProc(body, Nil, cx, mid).Ok? {
        ProcMoves(k, otherwise, Nil, cx, NormProc(body, Nil, cx, mid).value.st);
      }
    }
    IfStep(k, cond, body, otherwise, acc, cx, st, ShiftProc(k, cond), ShiftProc(k, body), ShiftProc(k, otherwise),
           ShiftContext(k, cx), ShiftState(k, st));
  }

  lemma {:induction false} ProcMoves(k: nat, p: Proc, acc: Par, cx: Context, st: State)
    ensures Moves(k, p, ShiftProc(k, p), acc, cx, ShiftContext(k, cx), st, ShiftState(k, st))
    decreases WProc(p), 10
  {
    hide NormProc, ShiftProc, ShiftContext, ShiftState, ShiftOut;
    ProcFresh(k, p, acc, cx, st);
  }

  lemma IfStep(k: nat, cond: Proc, body: Proc, otherwise: Proc, acc: Par, cx: Context, st: State,
               cond': Proc, body': Proc, otherwise': Proc, cx': Context, st': State)
    requires Moves(k, cond, cond', acc, cx, cx', st, st')
    requires NormProc(cond, acc, cx, st).Ok? ==>
               var mid := NormProc(cond, acc, cx, st).value.st;
               && Moves(k, body, body', Nil, cx, cx', mid, ShiftState(k, mid))
               && (NormProc(body, Nil, cx, mid).Ok? ==>
                     var end := NormProc(body, Nil, cx, mid).value.st;
                     Moves(k, otherwise, otherwise', Nil, cx, cx', end, ShiftState(k, end)))
    ensures NormIf(cond', body', otherwise', acc, cx', st') == ShiftOut(k, NormIf(cond, body, otherwise, acc, cx, st))
  {
    hide NormProc, PrependMatch, FromExpr, ShiftState;
  }

  lemma {:induction false} MatchFresh(k: nat, target: Proc, cases: seq<Case>, acc: Par, cx: Context, st: State)
    ensures NormMatch(ShiftProc(k, target), ShiftCases(k, cases), acc, ShiftContext(k, cx), ShiftState(k, st))
         == ShiftOut(k, NormMatch(target, cases, acc, cx, st))
    decreases 1 + WProc(target) + WCases(cases), 0
  {
    hide NormProc, NormCases, ShiftProc, ShiftCases, ShiftContext, ShiftState;
    ProcFresh(k, target, Nil, cx, st);
    match NormProc(target, Nil, cx, st)
    case Ok(t) => CasesFresh(k, cases, cx, t.st);
    case Err(_) =>
  }

  lemma {:induction false} CasesFresh(k: nat, cases: seq<Case>, cx: Context, st: State)
    ensures NormCases(ShiftCases(k, cases), ShiftContext(k, cx), ShiftState(k, st))
         == ShiftCaseOuts(k, NormCases(cases, cx, st))
    decreases WCases(cases), 0
  {
    hide NormProc, ShiftProc, ShiftContext, ShiftKeys, Context.Push, Context.AbsorbFree;
    if cases != [] {
      assert WCases(cases) == WCase(cases[0]) + WCases(cases[1..]);
      assert ShiftCases(k, cases)[1..] == ShiftCases(k, cases[1..]);
      PushShift(k, cx);
      var start := State(EmptyFreeMap, st.supply);
      ProcFresh(k, cases[0].pattern, Nil, cx.Push(), start);
      if NormProc(cases[0].pattern, Nil, cx.Push(), start).Ok? {
        var pat := NormProc(cases[0].pattern, Nil, cx.Push(), start).value;
        AbsorbFreeShift(k, cx, pat.st.free);
        var st' := State(st.free, pat.st.supply);
        ProcFresh(k, cases[0].body, Nil, cx.AbsorbFree(pat.st.free), st');
        if NormProc(cases[0].body, Nil, cx.AbsorbFree(pat.st.free), st').Ok? {
          CasesFresh(k, cases[1..], cx, NormProc(cases[0].body, Nil, cx.AbsorbFree(pat.st.free), st').value.st);
        }
      }
    }
  }

  lemma {:induction false} ContrFresh(
    k: nat, n: Name, formals: seq<Name>, remainder: Remainder, body: Proc, acc: Par, cx: Context, st: State)
    ensures NormContr(ShiftName(k, n), ShiftNames(k, formals), ShiftRemainder(k, remainder), ShiftProc(k, body), acc,
                      ShiftContext(k, cx), ShiftState(k, st))
         == ShiftOut(k, NormContr(n, formals, remainder, body, acc, cx, st))
    decreases WName(n) + WNames(formals) + WProc(body) + 1, 0
  {
    hide NormContr, NormName, NormNames, FinishContr, ShiftProc, ShiftName, ShiftNames, ShiftRemainder, ShiftContext,
         ShiftFree, ShiftOut, ShiftOuts, Context.Push, Context.Depth;
    NameFresh(k, n, cx, st);
    PushShift(k, cx);
    if NormName(n, cx, st).Ok? {
      var name := NormName(n, cx, st).value;
      var start := State(EmptyFreeMap, name.st.supply);
      NamesFresh(k, formals, cx.Depth() == 0, cx.Push(), start);
      if NormNames(formals, cx.Depth() == 0, cx.Push(), start).Ok? {
        FinishContrFresh(
          k, name, NormNames(formals, cx.Depth() == 0, cx.Push(), start).value, remainder, body, acc, cx);
      }
    }
    ContrStep(k, n, formals, remainder, body, acc, cx, st, ShiftName(k, n), ShiftNames(k, formals),
              ShiftRemainder(k, remainder), ShiftProc(k, body), ShiftContext(k, cx), ShiftState(k, st));
  }

  lemma ContrStep(
    k: nat, n: Name, formals: seq<Name>, remainder: Remainder, body: Proc, acc: Par, cx: Context, st: State,
    n': Name, formals': seq<Name>, remainder': Remainder, body': Proc, cx': Context, st': State)
    requires NormName(n', cx', st') == ShiftOut(k, NormName(n, cx, st)) && cx'.Depth() == cx.Depth()
    requires NormName(n, cx, st).Ok? ==>
      var name := NormName(n, cx, st).value;
      var start := State(EmptyFreeMap, name.st.supply);
      var fs := NormNames(formals, cx.Depth() == 0, cx.Push(), start);
      && NamesMove(k, formals, formals', cx.Depth() == 0, cx.Push(), cx'.Push(), start, start.(supply := start.supply + k))
      && (fs.Ok? ==>
            FinishContr(Out(name.par, ShiftState(k, name.st)), Outs(fs.value.pars, ShiftState(k, fs.value.st)),
                        remainder', body', acc, cx')
            == ShiftOut(k, FinishContr(name, fs.value, remainder, body, acc, cx)))
    ensures NormContr(n', formals', remainder', body', acc, cx', st')
         == ShiftOut(k, NormContr(n, formals, remainder, body, acc, cx, st))
  {
    hide NormName, NormNames, FinishContr, ShiftFree, Context.Push, Context.Depth;
  }

  lemma {:induction false} FinishContrFresh(
    k: nat, name: Out, fs: Outs, remainder: Remainder, body: Proc, acc: Par, cx: Context)
    ensures FinishContr(Out(name.par, ShiftState(k, name.st)), Outs(fs.pars, ShiftState(k, fs.st)),
                        ShiftRemainder(k, remainder), ShiftProc(k, body), acc, ShiftContext(k, cx))
         == ShiftOut(k, FinishContr(name, fs, remainder, body, acc, cx))
    decreases WProc(body), 10
  {
    hide NormProc, NormRemainder, ShiftProc, ShiftRemainder, ShiftContext, ShiftKeys, PrependReceive,
         Context.AbsorbFree;
    RemainderFresh(k, remainder, fs.st.free);
    match NormRemainder(remainder, fs.st.free)
    case Ok(rest) =>
      AbsorbFreeShift(k, cx, rest.free);
      ProcFresh(k, body, Nil, cx.AbsorbFree(rest.free), State(name.st.free, fs.st.supply));
    case Err(_) =>
  }

  lemma {:induction false} SugarFresh(k: nat, p: Proc, acc: Par, cx: Context, st: State)
    requires IsSugar(p)
    ensures IsSugar(ShiftProc(k, p))
    ensures NormSugar(ShiftProc(k, p), acc, ShiftContext(k, cx), ShiftState(k, st))
         == ShiftOut(k, NormSugar(p, acc, cx, st))
    decreases WProc(p), 7
  {
    hide NormSendSynch, NormChoice, NormInput, NormLet, ShiftContext, ShiftState;
    match p
    case PSendSynch(n, data, cont) => SendSynchFresh(k, n, data, cont, acc, cx, st);
    case PInput(receipts, body) => InputFresh(k, receipts, body, acc, cx, st);
    case PLet(d, ds, body) => LetFresh(k, d, ds, body, acc, cx, st);
    case PChoice(branches) => ChoiceFresh(k, branches, acc, cx, st);
  }

  lemma {:induction false} SendSynchFresh(
    k: nat, n: Name, data: seq<Proc>, cont: SynchSendCont, acc: Par, cx: Context, st: State)
    ensures NormSendSynch(ShiftName(k, n), ShiftProcs(k, data), ShiftCont(k, cont), acc, ShiftContext(k, cx),
                          ShiftState(k, st))
         == ShiftOut(k, NormSendSynch(n, data, cont, acc, cx, st))
    decreases WProc(PSendSynch(n, data, cont)), 0
  {
    hide NormProc, ShiftProc, ShiftName, ShiftProcs, ShiftCont, ShiftContext, ShiftFree, ShiftOut, DesugarSendSynch;
    var x := Fresh(st.supply);
    SendSynchWeight(n, data, cont, x);
    SendSynchShift(k, n, data, cont, x);
    ProcFresh(k, DesugarSendSynch(n, data, cont, x), acc, cx, State(st.free, st.supply + 1));
  }

  lemma {:induction false} ChoiceFresh(k: nat, branches: seq<Branch>, acc: Par, cx: Context, st: State)
    ensures NormChoice(ShiftBranches(k, branches), acc, ShiftContext(k, cx), ShiftState(k, st))
         == ShiftOut(k, NormChoice(branches, acc, cx, st))
    decreases 2 + WBranches(branches), 0
  {
    hide NormProc, ShiftProc, ShiftBranches, ShiftContext, ShiftState, ShiftOut, DesugarChoice;
    ChoiceWeight(branches);
    ChoiceShift(k, branches);
    ProcFresh(k, DesugarChoice(branches), acc, cx, st);
  }

  lemma {:induction false} InputFresh(k: nat, receipts: seq<Receipt>, body: Proc, acc: Par, cx: Context, st: State)
    ensures NormInput(ShiftReceipts(k, receipts), ShiftProc(k, body), acc, ShiftContext(k, cx), ShiftState(k, st))
         == ShiftOut(k, NormInput(receipts, body, acc, cx, st))
    decreases WProc(PInput(receipts, body)), 6
  {
    hide NormProc, NormReceipt, NestReceipts, ShiftProc, ShiftReceipt, ShiftContext, ShiftState;
    if |receipts| > 1 {
      NestWeight(receipts, body);
      NestShift(k, receipts, body);
      ProcFresh(k, NestReceipts(receipts, body), acc, cx, st);
    } else if receipts != [] {
      assert receipts == [receipts[0]];
      OneReceiptWeight(receipts[0], body);
      ReceiptFresh(k, receipts[0], body, acc, cx, st);
    }
  }

  lemma {:induction false} ReceiptFresh(k: nat, rc: Receipt, body: Proc, acc: Par, cx: Context, st: State)
    ensures NormReceipt(ShiftReceipt(k, rc), ShiftProc(k, body), acc, ShiftContext(k, cx), ShiftState(k, st))
         == ShiftOut(k, NormReceipt(rc, body, acc, cx, st))
    decreases 1 + WReceipt(rc) + WProc(body), 5
  {
    hide NormProc, NormReceive, ShiftProc, ShiftLinears, ShiftBinds, ShiftContext, ShiftFree, DesugarComplex, Assemble,
         IsComplex, SimpleBinds;
    match rc
    case ReceiptLinear(bs) =>
      IsComplexShift(k, bs);
      if IsComplex(bs) {
        var c := DesugarComplex(bs, body, st.supply);
        ComplexWeight(bs, body, st.supply);
        OneReceiptWeight(rc, body);
        DesugarComplexShift(k, bs, body, st.supply);
        AssembleShift(k, c);
        ProcFresh(k, Assemble(c), acc, cx, State(st.free, c.supply));
      } else {
        SimpleBindsWeight(bs);
        SimpleBindsShift(k, bs);
        ReceiveFresh(k, SimpleBinds(bs), false, false, body, acc, cx, st);
      }
    case ReceiptRepeated(bs) => ReceiveFresh(k, bs, true, false, body, acc, cx, st);
    case ReceiptPeek(bs) => ReceiveFresh(k, bs, false, true, body, acc, cx, st);
  }

  lemma {:induction false} SourcesFresh(k: nat, bs: seq<NameBind>, cx: Context, st: State)
    ensures NormSources(ShiftBinds(k, bs), ShiftContext(k, cx), ShiftState(k, st)) == ShiftOuts(k, NormSources(bs, cx, st))
    decreases WBinds(bs), 0
  {
    hide NormName, ShiftName, ShiftNames, ShiftContext, ShiftState;
    if bs != [] {
      assert WBinds(bs) == WBind(bs[0]) + WBinds(bs[1..]);
      assert ShiftBinds(k, bs)[1..] == ShiftBinds(k, bs[1..]);
      NameFresh(k, bs[0].source, cx, st);
      match NormName(bs[0].source, cx, st)
      case Ok(first) => SourcesFresh(k, bs[1..], cx, first.st);
      case Err(_) =>
    }
  }

  lemma {:induction false} BindsFresh(k: nat, bs: seq<NameBind>, sources: seq<Par>, cx: Context, supply: nat)
    requires |sources| == |bs|
    ensures NormBinds(ShiftBinds(k, bs), sources, ShiftContext(k, cx), supply + k)
         == ShiftBindOuts(k, NormBinds(bs, sources, cx, supply))
    decreases WBinds(bs), 0
  {
    hide NormNames, NormRemainder, NormBinds, ShiftName, ShiftNames, ShiftRemainder, ShiftContext, ShiftFree,
         ShiftBindOuts, ShiftOuts, Context.Push, Context.Depth;
    if bs == [] {
      NoBindsFresh(k, sources, cx, supply);
    } else {
      assert WBinds(bs) == WBind(bs[0]) + WBinds(bs[1..]);
      assert ShiftBinds(k, bs)[1..] == ShiftBinds(k, bs[1..]);
      PushShift(k, cx);
      var start := State(EmptyFreeMap, supply);
      NamesFresh(k, bs[0].names, cx.Depth() == 0, cx.Push(), start);
      if NormNames(bs[0].names, cx.Depth() == 0, cx.Push(), start).Ok? {
        var ps := NormNames(bs[0].names, cx.Depth() == 0, cx.Push(), start).value;
        RemainderFresh(k, bs[0].remainder, ps.st.free);
        BindsFresh(k, bs[1..], sources[1..], cx, ps.st.supply);
      }
      BindsStep(k, bs, sources, cx, supply, ShiftBinds(k, bs), ShiftContext(k, cx));
    }
  }

  lemma NoBindsFresh(k: nat, sources: seq<Par>, cx: Context, supply: nat)
    requires sources == []
    ensures NormBinds(ShiftBinds(k, []), sources, ShiftContext(k, cx), supply + k)
         == ShiftBindOuts(k, NormBinds([], sources, cx, supply))
  {
    assert ShiftBindMaps(k, []) == [];
  }

  lemma BindsStep(
    k: nat, bs: seq<NameBind>, sources: seq<Par>, cx: Context, supply: nat, bs': seq<NameBind>, cx': Context)
    requires |sources| == |bs| == |bs'| > 0 && cx'.Depth() == cx.Depth()
    requires NamesMove(k, bs[0].names, bs'[0].names, cx.Depth() == 0, cx.Push(), cx'.Push(),
                       State(EmptyFreeMap, supply), State(EmptyFreeMap, supply + k))
    requires NormNames(bs[0].names, cx.Depth() == 0, cx.Push(), State(EmptyFreeMap, supply)).Ok? ==>
      var ps := NormNames(bs[0].names, cx.Depth() == 0, cx.Push(), State(EmptyFreeMap, supply)).value.st;
      && RemainderMoves(k, bs[0].remainder, bs'[0].remainder, ps.free, ShiftFree(k, ps.free))
      && NormBinds(bs'[1..], sources[1..], cx', ps.supply + k)
         == ShiftBindOuts(k, NormBinds(bs[1..], sources[1..], cx, ps.supply))
    ensures NormBinds(bs', sources, cx', supply + k) == ShiftBindOuts(k, NormBinds(bs, sources, cx, supply))
  {
    hide NormNames, NormRemainder, ShiftKeys, ShiftBindMaps, Context.Push, Context.Depth;
    var ps := NormNames(bs[0].names, cx.Depth() == 0, cx.Push(), State(EmptyFreeMap, supply));
    if ps.Ok? && NormRemainder(bs[0].remainder, ps.value.st.free).Ok? {
      var r := NormRemainder(bs[0].remainder, ps.value.st.free).value;
      if NormBinds(bs[1..], sources[1..], cx, ps.value.st.supply).Ok? {
        PrependBindShift(k, (ReceiveBind(ps.value.pars, sources[0], r.v, r.free.nextLevel), r.free),
                         NormBinds(bs[1..], sources[1..], cx, ps.value.st.supply).value.binds);
      }
    }
  }

  lemma PrependBindShift(k: nat, b: (ReceiveBind, FreeMap), bs: seq<(ReceiveBind, FreeMap)>)
    ensures ShiftBindMaps(k, [b] + bs) == [(b.0, ShiftFree(k, b.1))] + ShiftBindMaps(k, bs)
  {
    hide ShiftFree;
  }

  lemma {:induction false} ReceiveFresh(
    k: nat, bs: seq<NameBind>, persistent: bool, peek: bool, body: Proc, acc: Par, cx: Context, st: State)
    ensures NormReceive(ShiftBinds(k, bs), persistent, peek, ShiftProc(k, body), acc, ShiftContext(k, cx),
                        ShiftState(k, st))
         == ShiftOut(k, NormReceive(bs, persistent, peek, body, acc, cx, st))
    decreases 1 + WBinds(bs) + WProc(body), 4
  {
    hide FinishReceive, NormSources, NormBinds, ShiftProc, ShiftBinds, ShiftContext, ShiftFree, ShiftBindMaps;
    SourcesFresh(k, bs, cx, st);
    if NormSources(bs, cx, st).Ok? {
      var sources := NormSources(bs, cx, st).value;
      BindsFresh(k, bs, sources.pars, cx, sources.st.supply);
      if NormBinds(bs, sources.pars, cx, sources.st.supply).Ok? {
        FinishReceiveFresh(
          k, sources, NormBinds(bs, sources.pars, cx, sources.st.supply).value, persistent, peek, body, acc, cx);
      }
    }
  }

  lemma {:induction false} FinishReceiveFresh(
    k: nat, sources: Outs, binds: BindOuts, persistent: bool, peek: bool, body: Proc, acc: Par, cx: Context)
    ensures FinishReceive(Outs(sources.pars, ShiftState(k, sources.st)),
                          BindOuts(ShiftBindMaps(k, binds.binds), binds.supply + k),
                          persistent, peek, ShiftProc(k, body), acc, ShiftContext(k, cx))
         == ShiftOut(k, FinishReceive(sources, binds, persistent, peek, body, acc, cx))
    decreases WProc(body), 10
  {
    hide NormProc, SortBindsWith, MergeFreeMaps, RepeatedChannel, ShiftProc, ShiftContext, ShiftFree, ShiftBindMaps,
         BindsOf, FreeMapsOf, PrependReceive, Context.AbsorbFree;
    MergedShift(k, binds.binds);
    var merged := MergeFreeMaps(EmptyFreeMap, FreeMapsOf(SortBindsWith(binds.binds)));
    if merged.Ok? {
      ShiftFreeLevel(k, merged.value);
      AbsorbFreeShift(k, cx, merged.value);
      ProcFresh(k, body, Nil, cx.AbsorbFree(merged.value), State(sources.st.free, binds.supply));
    }
  }

  /** Sorting the binds and merging their free maps commute with the shift. */
  lemma MergedShift(k: nat, binds: seq<(ReceiveBind, FreeMap)>)
    ensures BindsOf(SortBindsWith(ShiftBindMaps(k, binds))) == BindsOf(SortBindsWith(binds))
    ensures MergeFreeMaps(EmptyFreeMap, FreeMapsOf(SortBindsWith(ShiftBindMaps(k, binds))))
         == match MergeFreeMaps(EmptyFreeMap, FreeMapsOf(SortBindsWith(binds)))
            case Ok(fm) => Ok(ShiftFree(k, fm))
            case Err(e) => Err(e)
  {
    hide SortBindsWith, MergeFreeMaps, ShiftFree, ShiftBindMaps, BindsOf, FreeMapsOf, ShiftFrees;
    SortBindsShift(k, binds);
    BindMapsShift(k, SortBindsWith(binds));
    PushShift(k, Context([EmptyBoundMap], []));
    MergeFreeMapsShift(k, EmptyFreeMap, FreeMapsOf(SortBindsWith(binds)));
  }

  lemma ShiftFreeLevel(k: nat, fm: FreeMap)
    ensures ShiftFree(k, fm).nextLevel == fm.nextLevel
  {
  }

  lemma {:induction false} LetFresh(k: nat, d: Decl, ds: Decls, body: Proc, acc: Par, cx: Context, st: State)
    ensures NormLet(ShiftDecl(k, d), ShiftDecls(k, ds), ShiftProc(k, body), acc, ShiftContext(k, cx), ShiftState(k, st))
         == ShiftOut(k, NormLet(d, ds, body, acc, cx, st))
    decreases WProc(PLet(d, ds, body)), 0
  {
    hide NormProc, NormLetMatch, ShiftProc, ShiftDecl, ShiftContext, ShiftFree, ShiftOut, LetContinuation,
         DesugarConcLet;
    match ds
    case EmptyDecls => LetMatchFresh(k, d, body, acc, cx, st);
    case LinearDecls(more) =>
      LetContinuationWeight(d, more, body);
      LetContinuationShift(k, more, body);
      LetMatchFresh(k, d, LetContinuation(more, body), acc, cx, st);
    case ConcDecls(more) =>
      ConcLetWeight(d, more, body, st.supply);
      assert ShiftDeclSeq(k, [d] + more) == [ShiftDecl(k, d)] + ShiftDeclSeq(k, more);
      ConcLetShift(k, [d] + more, body, st.supply);
      ProcFresh(k, DesugarConcLet([d] + more, body, st.supply), acc, cx, State(st.free, st.supply + 1 + |more|));
  }

  lemma {:induction false} LetMatchFresh(k: nat, d: Decl, continuation: Proc, acc: Par, cx: Context, st: State)
    ensures NormLetMatch(ShiftDecl(k, d), ShiftProc(k, continuation), acc, ShiftContext(k, cx), ShiftState(k, st))
         == ShiftOut(k, NormLetMatch(d, continuation, acc, cx, st))
    decreases 19 + WDecl(d) + WProc(continuation), 0
  {
    hide FinishLet, NormProcs, NormNames, NormRemainder, ShiftProc, ShiftProcs, ShiftNames, ShiftRemainder, ShiftContext,
         ShiftFree, Context.Push;
    ProcsFresh(k, d.procs, cx, st);
    PushShift(k, cx);
    RemainderFresh(k, d.remainder, EmptyFreeMap);
    if NormProcs(d.procs, cx, st).Ok? && NormRemainder(d.remainder, EmptyFreeMap).Ok? {
      var values, rest := NormProcs(d.procs, cx, st).value, NormRemainder(d.remainder, EmptyFreeMap).value;
      var start := State(rest.free, values.st.supply);
      NamesFresh(k, d.names, false, cx.Push(), start);
      if NormNames(d.names, false, cx.Push(), start).Ok? {
        FinishLetFresh(k, values, rest.v, NormNames(d.names, false, cx.Push(), start).value, continuation, acc, cx);
      }
    }
  }

  lemma {:induction false} FinishLetFresh(
    k: nat, values: Outs, rest: Option<Var>, names: Outs, continuation: Proc, acc: Par, cx: Context)
    ensures FinishLet(Outs(values.pars, ShiftState(k, values.st)), rest, Outs(names.pars, ShiftState(k, names.st)),
                      ShiftProc(k, continuation), acc, ShiftContext(k, cx))
         == ShiftOut(k, FinishLet(values, rest, names, continuation, acc, cx))
    decreases WProc(continuation), 10
  {
    hide NormProc, ShiftProc, ShiftContext, ShiftKeys, PrependMatch, FromExpr, Context.AbsorbFree;
    AbsorbFreeShift(k, cx, names.st.free);
    ProcFresh(k, continuation, Nil, cx.AbsorbFree(names.st.free), State(values.st.free, names.st.supply));
  }

  // ----- the compiler

  /** A tree no shift changes: it mentions no fresh identifier, like every tree the parser makes. */
  ghost predicate Lexical(p: Proc) {
    forall k: nat :: ShiftProc(k, p) == p
  }

  /** Normalizing a parsed tree with the counter `k` higher. */
  lemma LexicalShift(p: Proc, env: seq<Injection>, supply: nat, k: nat)
    requires Lexical(p)
    ensures NormProc(p, Nil, Context([EmptyBoundMap], env), State(EmptyFreeMap, supply + k))
         == ShiftOut(k, NormProc(p, Nil, Context([EmptyBoundMap], env), State(EmptyFreeMap, supply)))
  {
    hide NormProc;
    var cx, st := Context([EmptyBoundMap], env), State(EmptyFreeMap, supply);
    PushShift(k, cx);
    assert ShiftKeys<BoundContext>(k, map[]) == map[];
    assert ShiftChain(k, [EmptyBoundMap]) == [EmptyBoundMap];
    assert ShiftProc(k, p) == p;
    ProcFresh(k, p, Nil, cx, st);
  }

  /** The compiled term is a function of the source tree alone, whatever the counter was. */
  lemma CounterDoesNotMatter(p: Proc, env: seq<Injection>, s: nat, t: nat)
    requires Lexical(p)
    ensures AstToAdt(p, env, s) == AstToAdt(p, env, t)
    ensures NormalizeTerm(p, env, s) == NormalizeTerm(p, env, t)
  {
    hide NormProc, SortPar;
    LexicalShift(p, env, if s < t then s else t, if s < t then t - s else s - t);
  }
}
