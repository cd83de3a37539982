/** The accumulator law. Normalizing into an accumulator equals normalizing into
    `Nil` and putting the accumulator's fields after, unless the term has a
    conditional on its parallel spine, whose match target is normalized into the
    accumulator itself. */
module Accumulator {
  import opened Orders
  import opened Ast
  import opened ParOps
  import opened Sorter
  import opened ProcAst
  import opened Contexts
  import opened Desugar
  import opened Normalizer

  /** No `if` among the parallel components of `p`. */
  predicate NoSpineIf(p: Proc) {
    match p
    case PIf(_, _) => false
    case PIfElse(_, _, _) => false
    case PExprs(q) => NoSpineIf(q)
    case PPar(l, r) => NoSpineIf(l) && NoSpineIf(r)
    case _ => true
  }

  function Appended(acc: Par, r: Result<Out>): Result<Out> {
    match r
    case Ok(o) => Ok(Out(ParConcat(acc, o.par), o.st))
    case Err(e) => Err(e)
  }

  // ----- every builder is a concatenation

  lemma SendConcat(acc: Par, s: Send)
    ensures PrependSend(acc, s) == ParConcat(acc, PrependSend(Nil, s))
  {
  }

  lemma ReceiveConcat(acc: Par, r: Receive)
    ensures PrependReceive(acc, r) == ParConcat(acc, PrependReceive(Nil, r))
  {
  }

  lemma NewConcat(acc: Par, n: New)
    ensures PrependNew(acc, n) == ParConcat(acc, PrependNew(Nil, n))
  {
  }

  lemma ExprConcat(acc: Par, e: Expr)
    ensures PrependExpr(acc, e) == ParConcat(acc, PrependExpr(Nil, e))
    ensures WithConnectiveUsed(PrependExpr(acc, e)) == ParConcat(acc, WithConnectiveUsed(PrependExpr(Nil, e)))
  {
  }

  lemma MatchConcat(acc: Par, m: Match)
    ensures PrependMatch(acc, m) == ParConcat(acc, PrependMatch(Nil, m))
  {
  }

  lemma BundleConcat(acc: Par, b: Bundle)
    ensures PrependBundle(acc, b) == ParConcat(acc, PrependBundle(Nil, b))
  {
  }

  lemma ConnectiveConcat(acc: Par, c: Connective)
    ensures PrependConnective(acc, c) == ParConcat(acc, PrependConnective(Nil, c))
    ensures WithConnectiveUsed(PrependConnective(acc, c)) == ParConcat(acc, WithConnectiveUsed(PrependConnective(Nil, c)))
  {
  }

  lemma ConcatAssociative(p: Par, q: Par, r: Par)
    ensures ParConcat(ParConcat(p, q), r) == ParConcat(p, ParConcat(q, r))
  {
  }

  lemma ConcatNil(p: Par)
    ensures ParConcat(p, Nil) == p == ParConcat(Nil, p)
  {
  }

  // ----- the law, form by form

  lemma ProcVarLaw(v: ProcVar, acc: Par, cx: Context, st: State)
    ensures NormProcVar(v, acc, cx, st) == Appended(acc, NormProcVar(v, Nil, cx, st))
  {
    hide ParConcat, PrependExpr, WithConnectiveUsed;
    var r := NormProcVar(v, Nil, cx, st);
    var e := if v.ProcVarWildcard? then EVar(Wildcard)
             else if cx.Get(v.x).Some? then EVar(BoundVar(cx.Get(v.x).value.index))
             else EVar(FreeVar(st.free.nextLevel));
    ExprConcat(acc, e);
  }

  lemma VarRefLaw(kind: VarRefKind, x: Ident, acc: Par, cx: Context, st: State)
    ensures NormVarRef(kind, x, acc, cx, st) == Appended(acc, NormVarRef(kind, x, Nil, cx, st))
  {
    hide ParConcat, PrependConnective;
    if ChainFind(cx.chain, x).Some? {
      var (bc, depth) := ChainFind(cx.chain, x).value;
      ConnectiveConcat(acc, VarRef(bc.index, depth));
    }
  }

  lemma EvalLaw(n: Name, acc: Par, cx: Context, st: State)
    ensures NormEval(n, acc, cx, st) == Appended(acc, NormEval(n, Nil, cx, st))
  {
    hide NormName, ParConcat;
    if NormName(n, cx, st).Ok? { ConcatNil(NormName(n, cx, st).value.par); }
  }

  lemma NotLaw(p: Proc, acc: Par, cx: Context, st: State)
    ensures NormNot(p, acc, cx, st) == Appended(acc, NormNot(p, Nil, cx, st))
    ensures NormNeg(p, acc, cx, st) == Appended(acc, NormNeg(p, Nil, cx, st))
  {
    hide NormProc, ParConcat, PrependExpr;
    if NormProc(p, Nil, cx, st).Ok? {
      ExprConcat(acc, ENot(NormProc(p, Nil, cx, st).value.par));
      ExprConcat(acc, ENeg(NormProc(p, Nil, cx, st).value.par));
    }
  }

  lemma BinaryLaw(op: SourceOp, l: Proc, r: Proc, acc: Par, cx: Context, st: State)
    ensures NormBinary(op, l, r, acc, cx, st) == Appended(acc, NormBinary(op, l, r, Nil, cx, st))
  {
    hide NormProc, ParConcat, PrependExpr;
    if NormBinary(op, l, r, Nil, cx, st).Ok? {
      var left := NormProc(l, Nil, cx, st).value;
      ExprConcat(acc, EBinary(op, left.par, NormProc(r, Nil, cx, left.st).value.par));
    }
  }

  lemma MatchesLaw(l: Proc, r: Proc, acc: Par, cx: Context, st: State)
    ensures NormMatches(l, r, acc, cx, st) == Appended(acc, NormMatches(l, r, Nil, cx, st))
  {
    hide NormProc, ParConcat, PrependExpr;
    if NormMatches(l, r, Nil, cx, st).Ok? {
      var left := NormProc(l, Nil, cx, st).value;
      var right := NormProc(r, Nil, cx.Push(), State(EmptyFreeMap, left.st.supply)).value;
      ExprConcat(acc, EBinary(Matches, left.par, right.par));
    }
  }

  lemma NegationLaw(p: Proc, acc: Par, cx: Context, st: State)
    ensures NormNegation(p, acc, cx, st) == Appended(acc, NormNegation(p, Nil, cx, st))
  {
    hide NormProc, ParConcat, PrependConnective;
    if NormNegation(p, Nil, cx, st).Ok? {
      ConnectiveConcat(acc, ConnNot(NormProc(p, Nil, cx, State(EmptyFreeMap, st.supply)).value.par));
    }
  }

  lemma ConjunctionLaw(l: Proc, r: Proc, acc: Par, cx: Context, st: State)
    ensures NormConjunction(l, r, acc, cx, st) == Appended(acc, NormConjunction(l, r, Nil, cx, st))
  {
    hide NormProc, ParConcat, PrependConnective, Conjoin;
    if NormConjunction(l, r, Nil, cx, st).Ok? {
      var left := NormProc(l, Nil, cx, st).value;
      ConnectiveConcat(acc, Conjoin(left.par, NormProc(r, Nil, cx, left.st).value.par));
    }
  }

  lemma DisjunctionLaw(l: Proc, r: Proc, acc: Par, cx: Context, st: State)
    ensures NormDisjunction(l, r, acc, cx, st) == Appended(acc, NormDisjunction(l, r, Nil, cx, st))
  {
    hide NormProc, ParConcat, PrependConnective, Disjoin;
    if NormDisjunction(l, r, Nil, cx, st).Ok? {
      var left := NormProc(l, Nil, cx, State(EmptyFreeMap, st.supply)).value;
      var right := NormProc(r, Nil, cx, State(EmptyFreeMap, left.st.supply)).value;
      ConnectiveConcat(acc, Disjoin(left.par, right.par));
    }
  }

  lemma SendLaw(n: Name, multiple: bool, data: seq<Proc>, acc: Par, cx: Context, st: State)
    ensures NormSend(n, multiple, data, acc, cx, st) == Appended(acc, NormSend(n, multiple, data, Nil, cx, st))
  {
    hide NormName, NormProcsBackward, ParConcat, PrependSend;
    if NormSend(n, multiple, data, Nil, cx, st).Ok? {
      var name := NormName(n, cx, st).value;
      var ds := NormProcsBackward(data, cx, name.st).value;
      SendConcat(acc, Send(name.par, ds.pars, multiple, name.par.connectiveUsed || AnyConnectiveUsed(ds.pars)));
    }
  }

  lemma MethodLaw(target: Proc, name: string, args: seq<Proc>, acc: Par, cx: Context, st: State)
    ensures NormMethod(target, name, args, acc, cx, st) == Appended(acc, NormMethod(target, name, args, Nil, cx, st))
  {
    hide NormProc, NormProcsBackward, ParConcat, PrependExpr;
    if NormMethod(target, name, args, Nil, cx, st).Ok? {
      var t := NormProc(target, Nil, cx, st).value;
      var xs := NormProcsBackward(args, cx, t.st).value;
      ExprConcat(acc, EMethod(name, t.par, xs.pars, t.par.connectiveUsed || AnyConnectiveUsed(xs.pars)));
    }
  }

  lemma NewLaw(names: seq<NameDecl>, body: Proc, acc: Par, cx: Context, st: State)
    ensures NormNew(names, body, acc, cx, st) == Appended(acc, NormNew(names, body, Nil, cx, st))
  {
    hide NormProc, ParConcat, PrependNew, SortDecls;
    if NormNew(names, body, Nil, cx, st).Ok? {
      var sorted := SortDecls(names);
      var r := NormProc(body, Nil, cx.PutAll(DeclNames(sorted)), st).value;
      NewConcat(acc, New(|sorted|, r.par, DeclUris(sorted), cx.env));
    }
  }

  lemma MatchLaw(target: Proc, cases: seq<Case>, acc: Par, cx: Context, st: State)
    ensures NormMatch(target, cases, acc, cx, st) == Appended(acc, NormMatch(target, cases, Nil, cx, st))
  {
    hide NormProc, NormCases, ParConcat, PrependMatch;
    if NormMatch(target, cases, Nil, cx, st).Ok? {
      var t := NormProc(target, Nil, cx, st).value;
      var cs := NormCases(cases, cx, t.st).value;
      MatchConcat(acc, Match(t.par, cs.cases, cs.connectiveUsed || t.par.connectiveUsed));
    }
  }

  lemma BundleLaw(kind: BundleKind, body: Proc, acc: Par, cx: Context, st: State)
    ensures NormBundle(kind, body, acc, cx, st) == Appended(acc, NormBundle(kind, body, Nil, cx, st))
  {
    hide NormProc, ParConcat;
    if NormBundle(kind, body, Nil, cx, st).Ok? {
      var o := NormBundle(kind, body, Nil, cx, st).value;
      BundleConcat(acc, o.par.bundles[0]);
    }
  }

  lemma CollectLaw(c: Collection, acc: Par, cx: Context, st: State)
    ensures NormCollect(c, acc, cx, st) == Appended(acc, NormCollect(c, Nil, cx, st))
  {
    hide NormCollection, ParConcat, PrependExpr;
    if NormCollect(c, Nil, cx, st).Ok? {
      ExprConcat(acc, NormCollection(c, cx, st).value.expr);
    }
  }

  lemma ContrLaw(n: Name, formals: seq<Name>, remainder: Remainder, body: Proc, acc: Par, cx: Context, st: State)
    ensures NormContr(n, formals, remainder, body, acc, cx, st)
         == Appended(acc, NormContr(n, formals, remainder, body, Nil, cx, st))
  {
    hide NormName, NormNames, FinishContr, ParConcat, Context.Push, Context.Depth;
    if NormName(n, cx, st).Ok? {
      var name := NormName(n, cx, st).value;
      var fs := NormNames(formals, cx.Depth() == 0, cx.Push(), State(EmptyFreeMap, name.st.supply));
      if fs.Ok? { FinishContrLaw(name, fs.value, remainder, body, acc, cx); }
    }
  }

  lemma FinishContrLaw(name: Out, fs: Outs, remainder: Remainder, body: Proc, acc: Par, cx: Context)
    ensures FinishContr(name, fs, remainder, body, acc, cx)
         == Appended(acc, FinishContr(name, fs, remainder, body, Nil, cx))
  {
    hide NormProc, NormRemainder, ParConcat, Context.AbsorbFree;
    match FinishContr(name, fs, remainder, body, Nil, cx)
    case Ok(o) => ReceiveConcat(acc, o.par.receives[0]);
    case Err(_) =>
  }

  lemma ReceiveLaw(bs: seq<NameBind>, persistent: bool, peek: bool, body: Proc, acc: Par, cx: Context, st: State)
    ensures NormReceive(bs, persistent, peek, body, acc, cx, st)
         == Appended(acc, NormReceive(bs, persistent, peek, body, Nil, cx, st))
  {
    hide NormSources, NormBinds, FinishReceive, ParConcat;
    if NormSources(bs, cx, st).Ok? {
      var sources := NormSources(bs, cx, st).value;
      if NormBinds(bs, sources.pars, cx, sources.st.supply).Ok? {
        FinishReceiveLaw(
          sources, NormBinds(bs, sources.pars, cx, sources.st.supply).value, persistent, peek, body, acc, cx);
      }
    }
  }

  lemma FinishReceiveLaw(
    sources: Outs, binds: BindOuts, persistent: bool, peek: bool, body: Proc, acc: Par, cx: Context)
    ensures FinishReceive(sources, binds, persistent, peek, body, acc, cx)
         == Appended(acc, FinishReceive(sources, binds, persistent, peek, body, Nil, cx))
  {
    hide NormProc, SortBindsWith, MergeFreeMaps, RepeatedChannel, BindsOf, FreeMapsOf, ParConcat, Context.AbsorbFree;
    match FinishReceive(sources, binds, persistent, peek, body, Nil, cx)
    case Ok(o) => ReceiveConcat(acc, o.par.receives[0]);
    case Err(_) =>
  }

  lemma LetMatchLaw(d: Decl, continuation: Proc, acc: Par, cx: Context, st: State)
    ensures NormLetMatch(d, continuation, acc, cx, st) == Appended(acc, NormLetMatch(d, continuation, Nil, cx, st))
  {
    hide NormProcs, NormNames, NormRemainder, FinishLet, ParConcat, Context.Push;
    if NormProcs(d.procs, cx, st).Ok? && NormRemainder(d.remainder, EmptyFreeMap).Ok? {
      var values, rest := NormProcs(d.procs, cx, st).value, NormRemainder(d.remainder, EmptyFreeMap).value;
      var names := NormNames(d.names, false, cx.Push(), State(rest.free, values.st.supply));
      if names.Ok? { FinishLetLaw(values, rest.v, names.value, continuation, acc, cx); }
    }
  }

  lemma FinishLetLaw(values: Outs, rest: Option<Var>, names: Outs, continuation: Proc, acc: Par, cx: Context)
    ensures FinishLet(values, rest, names, continuation, acc, cx)
         == Appended(acc, FinishLet(values, rest, names, continuation, Nil, cx))
  {
    hide NormProc, ParConcat, FromExpr, Context.AbsorbFree;
    match FinishLet(values, rest, names, continuation, Nil, cx)
    case Ok(o) => MatchConcat(acc, o.par.matches[0]);
    case Err(_) =>
  }

  // ----- what the desugarings build has no conditional on its spine

  lemma {:induction false} ChoiceSpine(bs: seq<Branch>)
    ensures NoSpineIf(DesugarChoice(bs))
  {
    if |bs| > 1 { ChoiceSpine(bs[1..]); }
  }

  lemma {:induction false} SendsThenSpine(sends: seq<Proc>, last: Proc)
    requires NoSpineIf(last) && forall i :: 0 <= i < |sends| ==> sends[i].PSend?
    ensures NoSpineIf(SendsThen(sends, last))
  {
    if sends != [] { SendsThenSpine(sends[1..], last); }
  }

  lemma {:induction false} ComplexSends(bs: seq<LinearBind>, c: Complex)
    requires forall i :: 0 <= i < |c.sends| ==> c.sends[i].PSend?
    ensures forall i :: 0 <= i < |ComplexFold(bs, c).sends| ==> ComplexFold(bs, c).sends[i].PSend?
    decreases |bs|
  {
    if bs != [] { ComplexSends(bs[1..], ComplexStep(bs[0], c)); }
  }

  lemma AssembledSpine(bs: seq<LinearBind>, body: Proc, supply: nat)
    ensures NoSpineIf(Assemble(DesugarComplex(bs, body, supply)))
  {
    var c := DesugarComplex(bs, body, supply);
    ComplexSends(bs, Complex([], [], [], body, supply));
    SendsThenSpine(c.sends, PInput([ReceiptLinear(c.binds)], c.continuation));
  }

  // ----- the law

  /** Normalizing into an accumulator is normalizing into `Nil` and concatenating. */
  lemma {:induction false} AccumulatorLaw(p: Proc, acc: Par, cx: Context, st: State)
    requires NoSpineIf(p)
    ensures NormProc(p, acc, cx, st) == Appended(acc, NormProc(p, Nil, cx, st))
    decreases WProc(p), 9
  {
    hide NormEval, NormPPar, NormSend, NormCollect, NormOperator, NormSugar, NormForm, NormProcVar, NormVarRef,
         ParConcat, PrependExpr, PrependConnective, WithConnectiveUsed;
    if IsOperator(p) {
      OperatorLaw(p, acc, cx, st);
    } else if IsForm(p) {
      FormLaw(p, acc, cx, st);
    } else if IsSugar(p) {
      SugarLaw(p, acc, cx, st);
    } else {
      match p
      case PGround(g) => if NormGround(g).Ok? { ExprConcat(acc, NormGround(g).value); }
      case PNil => ConcatNil(acc);
      case PExprs(q) => AccumulatorLaw(q, acc, cx, st);
      case PVar(v) => ProcVarLaw(v, acc, cx, st);
      case PVarRef(kind, x) => VarRefLaw(kind, x, acc, cx, st);
      case PSimpleType(t) => ConnectiveConcat(acc, TypeConnective(t));
      case PEval(n) => EvalLaw(n, acc, cx, st);
      case PPar(l, r) => ParLaw(l, r, acc, cx, st);
      case PSend(n, multiple, data) => SendLaw(n, multiple, data, acc, cx, st);
      case PCollect(c) => CollectLaw(c, acc, cx, st);
    }
  }

  lemma OperatorLaw(p: Proc, acc: Par, cx: Context, st: State)
    requires IsOperator(p)
    ensures NormOperator(p, acc, cx, st) == Appended(acc, NormOperator(p, Nil, cx, st))
  {
    hide NormNot, NormNeg, NormBinary, NormMatches, NormNegation, NormConjunction, NormDisjunction, NormMethod,
         ParConcat;
    match p
    case PNot(q) => NotLaw(q, acc, cx, st);
    case PNeg(q) => NotLaw(q, acc, cx, st);
    case PBinary(op, l, r) => BinaryLaw(op, l, r, acc, cx, st);
    case PMatches(l, r) => MatchesLaw(l, r, acc, cx, st);
    case PNegation(q) => NegationLaw(q, acc, cx, st);
    case PConjunction(l, r) => ConjunctionLaw(l, r, acc, cx, st);
    case PDisjunction(l, r) => DisjunctionLaw(l, r, acc, cx, st);
    case PMethod(target, name, args) => MethodLaw(target, name, args, acc, cx, st);
  }

  lemma FormLaw(p: Proc, acc: Par, cx: Context, st: State)
    requires IsForm(p) && NoSpineIf(p)
    ensures NormForm(p, acc, cx, st) == Appended(acc, NormForm(p, Nil, cx, st))
  {
    hide NormNew, NormBundle, NormMatch, NormContr, NormIf, ParConcat;
    match p
    case PNew(names, body) => NewLaw(names, body, acc, cx, st);
    case PBundle(kind, body) => BundleLaw(kind, body, acc, cx, st);
    case PMatch(target, cases) => MatchLaw(target, cases, acc, cx, st);
    case PContr(n, formals, remainder, body) => ContrLaw(n, formals, remainder, body, acc, cx, st);
  }

  lemma ParStep(l: Proc, r: Proc, acc: Par, cx: Context, st: State)
    ensures NormProc(PPar(l, r), acc, cx, st)
         == match NormProc(l, acc, cx, st)
            case Ok(left) => NormProc(r, left.par, cx, left.st)
            case Err(e) => Err(e)
  {
    hide NormForm, NormSugar;
    assert NormProc(PPar(l, r), acc, cx, st) == NormPPar(l, r, acc, cx, st);
  }

  lemma {:induction false} ParLaw(l: Proc, r: Proc, acc: Par, cx: Context, st: State)
    requires NoSpineIf(l) && NoSpineIf(r)
    ensures NormProc(PPar(l, r), acc, cx, st) == Appended(acc, NormProc(PPar(l, r), Nil, cx, st))
    decreases 1 + WProc(l) + WProc(r), 0
  {
    hide NormProc, ParConcat, NoSpineIf;
    ParStep(l, r, acc, cx, st);
    ParStep(l, r, Nil, cx, st);
    AccumulatorLaw(l, acc, cx, st);
    if NormProc(l, Nil, cx, st).Ok? {
      var left := NormProc(l, Nil, cx, st).value;
      AccumulatorLaw(r, ParConcat(acc, left.par), cx, left.st);
      AccumulatorLaw(r, left.par, cx, left.st);
      if NormProc(r, Nil, cx, left.st).Ok? {
        ConcatAssociative(acc, left.par, NormProc(r, Nil, cx, left.st).value.par);
      }
    }
  }

  lemma {:induction false} SugarLaw(p: Proc, acc: Par, cx: Context, st: State)
    requires IsSugar(p)
    ensures NormSugar(p, acc, cx, st) == Appended(acc, NormSugar(p, Nil, cx, st))
    decreases WProc(p), 7
  {
    hide NormProc, NormInput, NormLet, ParConcat, DesugarSendSynch, DesugarChoice;
    match p
    case PSendSynch(n, data, cont) =>
      var x := Fresh(st.supply);
      SendSynchWeight(n, data, cont, x);
      AccumulatorLaw(DesugarSendSynch(n, data, cont, x), acc, cx, State(st.free, st.supply + 1)) by {
        assert DesugarSendSynch(n, data, cont, x).PNew? by { SendSynchSpine(n, data, cont, x); }
      }
    case PInput(receipts, body) => InputLaw(receipts, body, acc, cx, st);
    case PLet(d, ds, body) => LetLaw(d, ds, body, acc, cx, st);
    case PChoice(branches) =>
      ChoiceWeight(branches);
      ChoiceSpine(branches);
      AccumulatorLaw(DesugarChoice(branches), acc, cx, st);
  }

  lemma SendSynchSpine(n: Name, data: seq<Proc>, cont: SynchSendCont, x: Ident)
    ensures DesugarSendSynch(n, data, cont, x).PNew?
  {
  }

  lemma {:induction false} InputLaw(receipts: seq<Receipt>, body: Proc, acc: Par, cx: Context, st: State)
    ensures NormInput(receipts, body, acc, cx, st) == Appended(acc, NormInput(receipts, body, Nil, cx, st))
    decreases WProc(PInput(receipts, body)), 6
  {
    hide NormProc, NormReceipt, ParConcat;
    if |receipts| > 1 {
      NestWeight(receipts, body);
      AccumulatorLaw(NestReceipts(receipts, body), acc, cx, st);
    } else if receipts != [] {
      assert receipts == [receipts[0]];
      OneReceiptWeight(receipts[0], body);
      ReceiptLaw(receipts[0], body, acc, cx, st);
    }
  }

  lemma {:induction false} ReceiptLaw(rc: Receipt, body: Proc, acc: Par, cx: Context, st: State)
    ensures NormReceipt(rc, body, acc, cx, st) == Appended(acc, NormReceipt(rc, body, Nil, cx, st))
    decreases 1 + WReceipt(rc) + WProc(body), 5
  {
    hide NormProc, NormReceive, ParConcat, DesugarComplex, Assemble, IsComplex, SimpleBinds;
    match rc
    case ReceiptLinear(bs) =>
      if IsComplex(bs) {
        var c := DesugarComplex(bs, body, st.supply);
        ComplexWeight(bs, body, st.supply);
        OneReceiptWeight(rc, body);
        AssembledSpine(bs, body, st.supply);
        AccumulatorLaw(Assemble(c), acc, cx, State(st.free, c.supply));
      } else {
        ReceiveLaw(SimpleBinds(bs), false, false, body, acc, cx, st);
      }
    case ReceiptRepeated(bs) => ReceiveLaw(bs, true, false, body, acc, cx, st);
    case ReceiptPeek(bs) => ReceiveLaw(bs, false, true, body, acc, cx, st);
  }

  lemma {:induction false} LetLaw(d: Decl, ds: Decls, body: Proc, acc: Par, cx: Context, st: State)
    ensures NormLet(d, ds, body, acc, cx, st) == Appended(acc, NormLet(d, ds, body, Nil, cx, st))
    decreases WProc(PLet(d, ds, body)), 0
  {
    hide NormProc, NormLetMatch, ParConcat, LetContinuation;
    match ds
    case EmptyDecls => LetMatchLaw(d, body, acc, cx, st);
    case LinearDecls(more) =>
      LetMatchLaw(d, LetContinuation(more, body), acc, cx, st);
    case ConcDecls(more) =>
      ConcLetWeight(d, more, body, st.supply);
      AccumulatorLaw(DesugarConcLet([d] + more, body, st.supply), acc, cx, State(st.free, st.supply + 1 + |more|));
  }

  // ----- the law fails exactly for spine conditionals

  /** How many terms run in parallel at the top of `p`. */
  function Items(p: Par): nat {
    |p.sends| + |p.receives| + |p.news| + |p.exprs| + |p.matches| + |p.unforgeables| + |p.bundles| + |p.connectives|
  }

  /** What `into` adds to an accumulator: as many terms and matches as `alone`, before the accumulator's own. */
  ghost predicate Extends(into: Par, alone: Par, acc: Par) {
    && Items(into) == Items(alone) + Items(acc)
    && |into.matches| == |alone.matches| + |acc.matches|
    && into.matches[|alone.matches|..] == acc.matches
  }

  /** Same error, or same state and a term that extends the accumulator. */
  ghost predicate SameButTerm(into: Result<Out>, alone: Result<Out>, acc: Par) {
    match into
    case Err(_) => into == alone
    case Ok(o) => alone.Ok? && o.st == alone.value.st && Extends(o.par, alone.value.par, acc)
  }

  /** The accumulator never decides success, the error or the free map, only the term. */
  lemma {:induction false} AccumulatorShape(p: Proc, acc: Par, cx: Context, st: State)
    ensures SameButTerm(NormProc(p, acc, cx, st), NormProc(p, Nil, cx, st), acc)
    decreases WProc(p), 9
  {
    hide NormProc, NormIf;
    if NoSpineIf(p) {
      AccumulatorLaw(p, acc, cx, st);
    } else if p.PExprs? {
      ExprsStep(p.p, acc, cx, st);
      ExprsStep(p.p, Nil, cx, st);
      AccumulatorShape(p.p, acc, cx, st);
    } else if p.PPar? {
      ParShape(p.l, p.r, acc, cx, st);
    } else {
      SpineIf(p, acc, cx, st);
      SpineIf(p, Nil, cx, st);
      IfShape(p.cond, p.body, Otherwise(p), acc, cx, st);
    }
  }

  lemma ExprsStep(p: Proc, acc: Par, cx: Context, st: State)
    ensures NormProc(PExprs(p), acc, cx, st) == NormProc(p, acc, cx, st)
  {
    hide NormForm, NormSugar, NormOperator;
  }

  function Otherwise(p: Proc): Proc {
    if p.PIfElse? then p.otherwise else PNil
  }

  lemma SpineIf(p: Proc, acc: Par, cx: Context, st: State)
    requires p.PIf? || p.PIfElse?
    ensures NormProc(p, acc, cx, st) == NormIf(p.cond, p.body, Otherwise(p), acc, cx, st)
  {
    hide NormIf;
    assert NormProc(p, acc, cx, st) == NormForm(p, acc, cx, st);
  }

  lemma {:induction false} ParShape(l: Proc, r: Proc, acc: Par, cx: Context, st: State)
    ensures SameButTerm(NormProc(PPar(l, r), acc, cx, st), NormProc(PPar(l, r), Nil, cx, st), acc)
    decreases 1 + WProc(l) + WProc(r), 0
  {
    hide NormProc;
    ParStep(l, r, acc, cx, st);
    ParStep(l, r, Nil, cx, st);
    AccumulatorShape(l, acc, cx, st);
    if NormProc(l, Nil, cx, st).Ok? {
      var into, alone := NormProc(l, acc, cx, st).value, NormProc(l, Nil, cx, st).value;
      AccumulatorShape(r, into.par, cx, alone.st);
      AccumulatorShape(r, alone.par, cx, alone.st);
    }
  }

  lemma {:induction false} IfShape(cond: Proc, body: Proc, otherwise: Proc, acc: Par, cx: Context, st: State)
    ensures SameButTerm(NormIf(cond, body, otherwise, acc, cx, st), NormIf(cond, body, otherwise, Nil, cx, st), acc)
    decreases 1 + WProc(cond) + WProc(body) + WProc(otherwise), 0
  {
    hide NormProc, NormIf;
    AccumulatorShape(cond, acc, cx, st);
    IfStep(cond, body, otherwise, acc, cx, st);
  }

  lemma IfStep(cond: Proc, body: Proc, otherwise: Proc, acc: Par, cx: Context, st: State)
    requires SameButTerm(NormProc(cond, acc, cx, st), NormProc(cond, Nil, cx, st), acc)
    ensures SameButTerm(NormIf(cond, body, otherwise, acc, cx, st), NormIf(cond, body, otherwise, Nil, cx, st), acc)
  {
    hide NormProc, FromExpr;
  }

  /** The matches a term adds to its accumulator. */
  ghost function Own(p: Proc, acc: Par, cx: Context, st: State): seq<Match>
    requires NormProc(p, Nil, cx, st).Ok?
  {
    AccumulatorShape(p, acc, cx, st);
    NormProc(p, acc, cx, st).value.par.matches[..|NormProc(p, Nil, cx, st).value.par.matches|]
  }

  /** A term with a spine conditional adds different matches to accumulators of different sizes. */
  lemma {:induction false} SpineIfSensitive(p: Proc, x: Par, y: Par, cx: Context, st: State)
    requires !NoSpineIf(p) && NormProc(p, Nil, cx, st).Ok?
    requires Own(p, x, cx, st) == Own(p, y, cx, st)
    ensures Items(x) == Items(y)
    decreases WProc(p), 9
  {
    hide NormProc;
    AccumulatorShape(p, x, cx, st);
    AccumulatorShape(p, y, cx, st);
    if p.PExprs? {
      ExprsStep(p.p, x, cx, st);
      ExprsStep(p.p, y, cx, st);
      ExprsStep(p.p, Nil, cx, st);
      SpineIfSensitive(p.p, x, y, cx, st);
    } else if p.PPar? {
      ParSensitive(p.l, p.r, x, y, cx, st);
    } else {
      SpineIf(p, x, cx, st);
      SpineIf(p, y, cx, st);
      SpineIf(p, Nil, cx, st);
      IfSensitive(p.cond, p.body, Otherwise(p), x, y, cx, st);
    }
  }

  lemma IfSensitive(cond: Proc, body: Proc, otherwise: Proc, x: Par, y: Par, cx: Context, st: State)
    requires NormIf(cond, body, otherwise, Nil, cx, st).Ok?
    requires NormIf(cond, body, otherwise, x, cx, st).Ok? && NormIf(cond, body, otherwise, y, cx, st).Ok?
    requires NormIf(cond, body, otherwise, x, cx, st).value.par.matches[0]
          == NormIf(cond, body, otherwise, y, cx, st).value.par.matches[0]
    ensures Items(x) == Items(y)
  {
    hide NormProc;
    AccumulatorShape(cond, x, cx, st);
    AccumulatorShape(cond, y, cx, st);
  }

  lemma OwnPar(l: Proc, r: Proc, x: Par, cx: Context, st: State)
    requires NormProc(PPar(l, r), Nil, cx, st).Ok?
    ensures NormProc(l, Nil, cx, st).Ok? && NormProc(l, x, cx, st).Ok?
    ensures var left := NormProc(l, Nil, cx, st).value;
            && NormProc(r, Nil, cx, left.st).Ok?
            && |Own(r, NormProc(l, x, cx, st).value.par, cx, left.st)| == |NormProc(r, Nil, cx, left.st).value.par.matches|
            && Own(PPar(l, r), x, cx, st) == Own(r, NormProc(l, x, cx, st).value.par, cx, left.st) + Own(l, x, cx, st)
  {
    ParStep(l, r, x, cx, st);
    ParStep(l, r, Nil, cx, st);
    hide NormProc, NoSpineIf;
    AccumulatorShape(l, x, cx, st);
    var alone, into := NormProc(l, Nil, cx, st).value, NormProc(l, x, cx, st).value;
    AccumulatorShape(r, alone.par, cx, alone.st);
    AccumulatorShape(r, into.par, cx, alone.st);
    AccumulatorShape(PPar(l, r), x, cx, st);
  }

  lemma {:induction false} ParSensitive(l: Proc, r: Proc, x: Par, y: Par, cx: Context, st: State)
    requires !NoSpineIf(l) || !NoSpineIf(r)
    requires NormProc(PPar(l, r), Nil, cx, st).Ok?
    requires Own(PPar(l, r), x, cx, st) == Own(PPar(l, r), y, cx, st)
    ensures Items(x) == Items(y)
    decreases 1 + WProc(l) + WProc(r), 0
  {
    hide NormProc, Own;
    OwnPar(l, r, x, cx, st);
    OwnPar(l, r, y, cx, st);
    AccumulatorShape(l, x, cx, st);
    AccumulatorShape(l, y, cx, st);
    var left := NormProc(l, Nil, cx, st).value;
    var lx, ly := NormProc(l, x, cx, st).value.par, NormProc(l, y, cx, st).value.par;
    var k := |NormProc(r, Nil, cx, left.st).value.par.matches|;
    var whole := Own(PPar(l, r), x, cx, st);
    assert whole[..k] == Own(r, lx, cx, left.st) == Own(r, ly, cx, left.st);
    assert whole[k..] == Own(l, x, cx, st) == Own(l, y, cx, st);
    if !NoSpineIf(r) {
      SpineIfSensitive(r, lx, ly, cx, left.st);
    } else {
      SpineIfSensitive(l, x, y, cx, st);
    }
  }

  /** Exactly when the law holds: no conditional on the spine, or nothing accumulated yet. */
  lemma AccumulatorLawIff(p: Proc, acc: Par, cx: Context, st: State)
    requires NormProc(p, Nil, cx, st).Ok?
    requires IsNil(acc) ==> acc == Nil
    ensures NormProc(p, acc, cx, st) == Appended(acc, NormProc(p, Nil, cx, st)) <==> NoSpineIf(p) || acc == Nil
  {
    hide NormProc;
    var alone := NormProc(p, Nil, cx, st).value;
    ConcatNil(alone.par);
    if NoSpineIf(p) {
      AccumulatorLaw(p, acc, cx, st);
    } else if NormProc(p, acc, cx, st) == Appended(acc, NormProc(p, Nil, cx, st)) {
      AccumulatorShape(p, acc, cx, st);
      AccumulatorShape(p, Nil, cx, st);
      assert Own(p, acc, cx, st) == alone.par.matches == Own(p, Nil, cx, st);
      SpineIfSensitive(p, acc, Nil, cx, st);
    }
  }

  /** `true` accumulated before `if (Nil) Nil` ends up inside the match target. */
  lemma IfReadsAccumulator(cx: Context, st: State)
    ensures NormProc(PIf(PNil, PNil), FromExpr(GBool(true)), cx, st)
         != Appended(FromExpr(GBool(true)), NormProc(PIf(PNil, PNil), Nil, cx, st))
  {
    hide NormProc;
    SpineIf(PIf(PNil, PNil), Nil, cx, st);
    NilNormalized(cx, st);
    AccumulatorLawIff(PIf(PNil, PNil), FromExpr(GBool(true)), cx, st);
  }

  lemma NilNormalized(cx: Context, st: State)
    ensures NormProc(PNil, Nil, cx, st) == Ok(Out(Nil, st))
  {
    hide NormForm, NormSugar, NormOperator;
  }
}
