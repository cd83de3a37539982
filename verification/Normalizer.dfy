/** The normalizer (`rholang/src/normalizer.rs`): named source trees to nameless
    `Par`s. The list loops of the source appear as recursive functions over the
    lists; `supply` threads the global counter behind `fresh_identifier`. Every
    recursive call lowers the weight of `Desugar`, so normalization
    terminates on every source tree. */
module Normalizer {
  import opened Orders
  import opened StableSort
  import opened ScoreTree
  import opened Ast
  import opened ParOps
  import opened Sorter
  import opened Scope
  import opened ProcAst
  import opened Contexts
  import opened Desugar

  datatype NormError =
    | LiteralError
    | UnexpectedNameContext
    | UnexpectedProcContext
    | ReuseOfNameContextFree
    | ReuseOfProcContextFree
    | UnboundVariableRef
    | PatternReceiveError
    | UnexpectedBundleContent
    | SyntaxError
    | ReceiveOnSameChannels
    | TopLevelFreeVariables
    | TopLevelConnectives
    | TopLevelWildcards

  datatype Result<+T> = Ok(value: T) | Err(error: NormError) {
    predicate IsFailure() { Err? }
    function PropagateFailure<U>(): Result<U> requires Err? { Err(error) }
    function Extract(): T requires Ok? { value }
  }

  /** What normalization threads from term to term: the free map and the fresh-name counter. */
  datatype State = State(free: FreeMap, supply: nat)

  datatype Out = Out(par: Par, st: State)

  datatype Outs = Outs(pars: seq<Par>, st: State)

  /** What normalization reads: the bound maps and the injections of every `new`. */
  datatype Context = Context(chain: Chain, env: seq<Injection>) {
    function Get(x: Ident): Option<BoundContext> { chain[0].Get(x) }
    function Head(bm: BoundMap): Context { Context([bm] + chain[1..], env) }
    function PutAll(xs: seq<Ident>): Context { Head(chain[0].PutAll(xs, NameSort)) }
    function AbsorbFree(fm: FreeMap): Context { Head(chain[0].AbsorbFree(fm)) }
    function Push(): Context { Context([EmptyBoundMap] + chain, env) }
    function Depth(): int { |chain| - 1 }
  }

  // ----- literals

  predicate AllDigits(s: string) {
    forall i :: 0 <= i < |s| ==> '0' <= s[i] <= '9'
  }

  function DigitsValue(s: string): int {
    if s == "" then 0 else 10 * DigitsValue(s[..|s| - 1]) + (s[|s| - 1] as int - '0' as int)
  }

  /** Decimal text with an optional sign. */
  function ParseDecimal(s: string): Option<int> {
    var signed := s != "" && (s[0] == '-' || s[0] == '+');
    var digits := if signed then s[1..] else s;
    if digits == "" || !AllDigits(digits) then None
    else Some(if signed && s[0] == '-' then -DigitsValue(digits) else DigitsValue(digits))
  }

  /** Drop the delimiters the lexer keeps around strings and uris. */
  function Strip(raw: string): string {
    if |raw| < 2 then "" else raw[1..|raw| - 1]
  }

  function NormGround(g: Ground): Result<Expr> {
    match g
    case GroundBool(b) => Ok(GBool(b))
    case GroundInt(s) =>
      (match ParseDecimal(s)
       case Some(v) => if -0x8000_0000_0000_0000 <= v < 0x8000_0000_0000_0000 then Ok(GInt(v)) else Err(LiteralError)
       case None => Err(LiteralError))
    case GroundBigInt(s) =>
      (match ParseDecimal(s)
       case Some(v) => Ok(GBigInt(v))
       case None => Err(LiteralError))
    case GroundString(s) => Ok(GString(Strip(s)))
    case GroundUri(s) => Ok(GUri(Strip(s)))
  }

  // ----- variables and remainders

  function NormProcVar(v: ProcVar, acc: Par, cx: Context, st: State): Result<Out> {
    match v
    case ProcVarWildcard =>
      Ok(Out(WithConnectiveUsed(PrependExpr(acc, EVar(Wildcard))), st.(free := st.free.AddWildcard())))
    case ProcVarVar(x) =>
      match cx.Get(x)
      case Some(bc) =>
        if bc.typ == ProcSort then Ok(Out(PrependExpr(acc, EVar(BoundVar(bc.index))), st))
        else Err(UnexpectedProcContext)
      case None =>
        if x in st.free.bindings then Err(ReuseOfProcContextFree)
        else Ok(Out(WithConnectiveUsed(PrependExpr(acc, EVar(FreeVar(st.free.nextLevel)))),
                    st.(free := st.free.Put(x, ProcSort))))
  }

  function NormNameVar(x: Ident, cx: Context, st: State): Result<Out> {
    match cx.Get(x)
    case Some(bc) =>
      if bc.typ == NameSort then Ok(Out(PrependExpr(Nil, EVar(BoundVar(bc.index))), st))
      else Err(UnexpectedNameContext)
    case None =>
      if x in st.free.bindings then Err(ReuseOfNameContextFree)
      else Ok(Out(PrependExpr(Nil, EVar(FreeVar(st.free.nextLevel))), st.(free := st.free.Put(x, NameSort))))
  }

  function NormVarRef(kind: VarRefKind, x: Ident, acc: Par, cx: Context, st: State): Result<Out> {
    match ChainFind(cx.chain, x)
    case None => Err(UnboundVariableRef)
    case Some((bc, depth)) =>
      if kind == (if bc.typ == ProcSort then VarRefKindProc else VarRefKindName) then
        Ok(Out(PrependConnective(acc, VarRef(bc.index, depth)), st))
      else Err(if bc.typ == ProcSort then UnexpectedProcContext else UnexpectedNameContext)
  }

  datatype Rest = Rest(v: Option<Var>, free: FreeMap)

  function NormRemainder(r: Remainder, fm: FreeMap): Result<Rest> {
    match r
    case RemainderEmpty => Ok(Rest(None, fm))
    case RemainderVar(ProcVarWildcard) => Ok(Rest(Some(Wildcard), fm.AddWildcard()))
    case RemainderVar(ProcVarVar(x)) =>
      if x in fm.bindings then Err(ReuseOfProcContextFree)
      else Ok(Rest(Some(FreeVar(fm.nextLevel)), fm.Put(x, ProcSort)))
  }

  // ----- pieces of the cases below that do not recurse

  function TypeConnective(t: SimpleType): Connective {
    match t
    case SimpleTypeBool => ConnBool(true)
    case SimpleTypeInt => ConnInt(true)
    case SimpleTypeBigInt => ConnBigInt(true)
    case SimpleTypeString => ConnString(true)
    case SimpleTypeUri => ConnUri(true)
    case SimpleTypeByteArray => ConnByteArray(true)
  }

  function Conjoin(l: Par, r: Par): Connective {
    match SingleConnective(l)
    case Some(ConnAnd(ps)) => ConnAnd(ps + [r])
    case _ => ConnAnd([l, r])
  }

  function Disjoin(l: Par, r: Par): Connective {
    match SingleConnective(l)
    case Some(ConnOr(ps)) => ConnOr(ps + [r])
    case _ => ConnOr([l, r])
  }

  /** `\/` and `~` are refused in receive patterns outside any other pattern. */
  predicate InvalidInPattern(fm: FreeMap) {
    exists i :: 0 <= i < |fm.connectives| && (fm.connectives[i].ConnOr? || fm.connectives[i].ConnNot?)
  }

  /** Declarations without uri first, then by uri; equal keys keep their order. */
  function DeclKey(d: NameDecl): Tree {
    if d.NameDeclUrn? then Str(Strip(d.uri)) else Int(0)
  }

  function ScoreDecls(ds: seq<NameDecl>): (r: seq<Scored<NameDecl>>)
    ensures |r| == |ds| && forall i :: 0 <= i < |ds| ==> r[i] == Scored(ds[i], DeclKey(ds[i]))
  {
    seq(|ds|, i requires 0 <= i < |ds| => Scored(ds[i], DeclKey(ds[i])))
  }

  function SortDecls(ds: seq<NameDecl>): seq<NameDecl> {
    Terms(Sort(ScoreDecls(ds)))
  }

  function DeclNames(ds: seq<NameDecl>): (r: seq<Ident>)
    ensures |r| == |ds|
  {
    seq(|ds|, i requires 0 <= i < |ds| => ds[i].x)
  }

  function DeclUris(ds: seq<NameDecl>): seq<string> {
    if ds == [] then []
    else (if ds[0].NameDeclUrn? then [Strip(ds[0].uri)] else []) + DeclUris(ds[1..])
  }

  function BundleFlags(kind: BundleKind): (bool, bool) {
    match kind
    case BundleReadWrite => (true, true)
    case BundleRead => (false, true)
    case BundleWrite => (true, false)
    case BundleEquiv => (false, false)
  }

  function FinishBundle(kind: BundleKind, body: Out, acc: Par, st: State): Result<Out> {
    if body.par.connectives != [] then Err(UnexpectedBundleContent)
    else if body.st.free.wildcards != 0 || body.st.free.bindings != map[] then Err(UnexpectedBundleContent)
    else
      var (write, read) := BundleFlags(kind);
      var outermost := Bundle(body.par, write, read);
      var merged :=
        match SingleBundle(body.par)
        case Some(single) => MergeBundles(outermost, single)
        case None => outermost;
      Ok(Out(PrependBundle(acc, merged), st.(supply := body.st.supply)))
  }

  function FreeMapsOf(binds: seq<(ReceiveBind, FreeMap)>): (r: seq<FreeMap>)
    ensures |r| == |binds| && forall i :: 0 <= i < |binds| ==> r[i] == binds[i].1
  {
    seq(|binds|, i requires 0 <= i < |binds| => binds[i].1)
  }

  function BindsOf(binds: seq<(ReceiveBind, FreeMap)>): (r: seq<ReceiveBind>)
    ensures |r| == |binds| && forall i :: 0 <= i < |binds| ==> r[i] == binds[i].0
  {
    seq(|binds|, i requires 0 <= i < |binds| => binds[i].0)
  }

  predicate RepeatedChannel(binds: seq<ReceiveBind>) {
    exists i, j :: 0 <= i < j < |binds| && binds[i].source == binds[j].source
  }

  /** Merge the free maps of a receive's binds from left to right, refusing shared names. */
  function MergeFreeMaps(acc: FreeMap, fms: seq<FreeMap>): Result<FreeMap>
    decreases |fms|
  {
    if fms == [] then Ok(acc)
    else if acc.Shadows(fms[0]) then Err(ReuseOfNameContextFree)
    else MergeFreeMaps(acc.Merge(fms[0]), fms[1..])
  }

  // ----- the recursion

  function NormName(n: Name, cx: Context, st: State): Result<Out>
    decreases WName(n), 0
  {
    match n
    case NameWildcard => Ok(Out(PrependExpr(Nil, EVar(Wildcard)), st.(free := st.free.AddWildcard())))
    case NameVar(x) => NormNameVar(x, cx, st)
    case NameQuote(p) => NormProc(p, Nil, cx, st)
  }

  function NormProc(p: Proc, acc: Par, cx: Context, st: State): Result<Out>
    decreases WProc(p), 9
  {
    if IsOperator(p) then NormOperator(p, acc, cx, st)
    else if IsForm(p) then NormForm(p, acc, cx, st)
    else if IsSugar(p) then NormSugar(p, acc, cx, st)
    else
      match p
      case PGround(g) =>
        var e :- NormGround(g);
        Ok(Out(PrependExpr(acc, e), st))
      case PNil => Ok(Out(acc, st))
      case PExprs(q) => NormProc(q, acc, cx, st)
      case PVar(v) => NormProcVar(v, acc, cx, st)
      case PVarRef(kind, x) => NormVarRef(kind, x, acc, cx, st)
      case PSimpleType(t) => Ok(Out(WithConnectiveUsed(PrependConnective(acc, TypeConnective(t))), st))
      case PEval(n) => NormEval(n, acc, cx, st)
      case PPar(l, r) => NormPPar(l, r, acc, cx, st)
      case PSend(n, multiple, data) => NormSend(n, multiple, data, acc, cx, st)
      case PCollect(c) => NormCollect(c, acc, cx, st)
  }

  /** Expression operators, logical connectives and method calls. */
  function NormOperator(p: Proc, acc: Par, cx: Context, st: State): Result<Out>
    requires IsOperator(p)
    decreases WProc(p), 8
  {
    match p
    case PNot(q) => NormNot(q, acc, cx, st)
    case PNeg(q) => NormNeg(q, acc, cx, st)
    case PBinary(op, l, r) => NormBinary(op, l, r, acc, cx, st)
    case PMatches(l, r) => NormMatches(l, r, acc, cx, st)
    case PNegation(q) => NormNegation(q, acc, cx, st)
    case PConjunction(l, r) => NormConjunction(l, r, acc, cx, st)
    case PDisjunction(l, r) => NormDisjunction(l, r, acc, cx, st)
    case PMethod(target, name, args) => NormMethod(target, name, args, acc, cx, st)
  }

  /** Binders, bundles, conditionals, matches and contracts. */
  function NormForm(p: Proc, acc: Par, cx: Context, st: State): Result<Out>
    requires IsForm(p)
    decreases WProc(p), 8
  {
    match p
    case PNew(names, body) => NormNew(names, body, acc, cx, st)
    case PBundle(kind, body) => NormBundle(kind, body, acc, cx, st)
    case PIf(cond, body) => NormIf(cond, body, PNil, acc, cx, st)
    case PIfElse(cond, body, otherwise) => NormIf(cond, body, otherwise, acc, cx, st)
    case PMatch(target, cases) => NormMatch(target, cases, acc, cx, st)
    case PContr(n, formals, remainder, body) => NormContr(n, formals, remainder, body, acc, cx, st)
  }

  /** The forms that rewrite the source tree first. */
  function NormSugar(p: Proc, acc: Par, cx: Context, st: State): Result<Out>
    requires IsSugar(p)
    decreases WProc(p), 7
  {
    match p
    case PSendSynch(n, data, cont) => NormSendSynch(n, data, cont, acc, cx, st)
    case PInput(receipts, body) => NormInput(receipts, body, acc, cx, st)
    case PLet(d, ds, body) => NormLet(d, ds, body, acc, cx, st)
    case PChoice(branches) => NormChoice(branches, acc, cx, st)
  }

  function NormEval(n: Name, acc: Par, cx: Context, st: State): Result<Out>
    decreases WName(n), 1
  {
    var r :- NormName(n, cx, st);
    Ok(Out(ParConcat(acc, r.par), r.st))
  }

  function NormPPar(l: Proc, r: Proc, acc: Par, cx: Context, st: State): Result<Out>
    decreases 1 + WProc(l) + WProc(r), 0
  {
    var left :- NormProc(l, acc, cx, st);
    NormProc(r, left.par, cx, left.st)
  }

  function NormNot(p: Proc, acc: Par, cx: Context, st: State): Result<Out>
    decreases 1 + WProc(p), 0
  {
    var r :- NormProc(p, Nil, cx, st);
    Ok(Out(PrependExpr(acc, ENot(r.par)), r.st))
  }

  function NormNeg(p: Proc, acc: Par, cx: Context, st: State): Result<Out>
    decreases 1 + WProc(p), 0
  {
    var r :- NormProc(p, Nil, cx, st);
    Ok(Out(PrependExpr(acc, ENeg(r.par)), r.st))
  }

  function NormBinary(op: SourceOp, l: Proc, r: Proc, acc: Par, cx: Context, st: State): Result<Out>
    decreases 1 + WProc(l) + WProc(r), 0
  {
    var left :- NormProc(l, Nil, cx, st);
    var right :- NormProc(r, Nil, cx, left.st);
    Ok(Out(PrependExpr(acc, EBinary(op, left.par, right.par)), right.st))
  }

  /** The free map of the pattern is discarded. */
  function NormMatches(l: Proc, r: Proc, acc: Par, cx: Context, st: State): Result<Out>
    decreases 1 + WProc(l) + WProc(r), 0
  {
    var left :- NormProc(l, Nil, cx, st);
    var right :- NormProc(r, Nil, cx.Push(), State(EmptyFreeMap, left.st.supply));
    Ok(Out(PrependExpr(acc, EBinary(Matches, left.par, right.par)), State(left.st.free, right.st.supply)))
  }

  /** The free map of the body is discarded. */
  function NormNegation(p: Proc, acc: Par, cx: Context, st: State): Result<Out>
    decreases 1 + WProc(p), 0
  {
    var r :- NormProc(p, Nil, cx, State(EmptyFreeMap, st.supply));
    var c := ConnNot(r.par);
    Ok(Out(PrependConnective(acc, c), State(st.free.AddConnective(c), r.st.supply)))
  }

  function NormConjunction(l: Proc, r: Proc, acc: Par, cx: Context, st: State): Result<Out>
    decreases 1 + WProc(l) + WProc(r), 0
  {
    var left :- NormProc(l, Nil, cx, st);
    var right :- NormProc(r, Nil, cx, left.st);
    var c := Conjoin(left.par, right.par);
    Ok(Out(PrependConnective(acc, c), State(right.st.free.AddConnective(c), right.st.supply)))
  }

  /** The free maps of both sides are discarded. */
  function NormDisjunction(l: Proc, r: Proc, acc: Par, cx: Context, st: State): Result<Out>
    decreases 1 + WProc(l) + WProc(r), 0
  {
    var left :- NormProc(l, Nil, cx, State(EmptyFreeMap, st.supply));
    var right :- NormProc(r, Nil, cx, State(EmptyFreeMap, left.st.supply));
    var c := Disjoin(left.par, right.par);
    Ok(Out(PrependConnective(acc, c), State(st.free.AddConnective(c), right.st.supply)))
  }

  function NormSend(n: Name, multiple: bool, data: seq<Proc>, acc: Par, cx: Context, st: State): Result<Out>
    decreases 1 + WName(n) + WProcs(data), 0
  {
    var name :- NormName(n, cx, st);
    var ds :- NormProcsBackward(data, cx, name.st);
    var send := Send(name.par, ds.pars, multiple, name.par.connectiveUsed || AnyConnectiveUsed(ds.pars));
    Ok(Out(PrependSend(acc, send), ds.st))
  }

  function NormMethod(target: Proc, name: string, args: seq<Proc>, acc: Par, cx: Context, st: State): Result<Out>
    decreases 1 + WProc(target) + WProcs(args), 0
  {
    var t :- NormProc(target, Nil, cx, st);
    var xs :- NormProcsBackward(args, cx, t.st);
    var call := EMethod(name, t.par, xs.pars, t.par.connectiveUsed || AnyConnectiveUsed(xs.pars));
    Ok(Out(PrependExpr(acc, call), xs.st))
  }

  function NormNew(names: seq<NameDecl>, body: Proc, acc: Par, cx: Context, st: State): Result<Out>
    decreases 1 + WProc(body), 0
  {
    var sorted := SortDecls(names);
    var r :- NormProc(body, Nil, cx.PutAll(DeclNames(sorted)), st);
    Ok(Out(PrependNew(acc, New(|sorted|, r.par, DeclUris(sorted), cx.env)), r.st))
  }

  function NormMatch(target: Proc, cases: seq<Case>, acc: Par, cx: Context, st: State): Result<Out>
    decreases 1 + WProc(target) + WCases(cases), 0
  {
    var t :- NormProc(target, Nil, cx, st);
    var cs :- NormCases(cases, cx, t.st);
    Ok(Out(PrependMatch(acc, Match(t.par, cs.cases, cs.connectiveUsed || t.par.connectiveUsed)), cs.st))
  }

  function NormBundle(kind: BundleKind, body: Proc, acc: Par, cx: Context, st: State): Result<Out>
    decreases 1 + WProc(body), 0
  {
    var r :- NormProc(body, Nil, cx, st);
    FinishBundle(kind, r, acc, st)
  }

  function NormCollect(c: Collection, acc: Par, cx: Context, st: State): Result<Out>
    decreases 1 + WCollection(c), 0
  {
    var r :- NormCollection(c, cx, st);
    Ok(Out(PrependExpr(acc, r.expr), r.st))
  }

  function NormSendSynch(n: Name, data: seq<Proc>, cont: SynchSendCont, acc: Par, cx: Context, st: State): Result<Out>
    decreases WProc(PSendSynch(n, data, cont)), 0
  {
    var x := Fresh(st.supply);
    SendSynchWeight(n, data, cont, x);
    NormProc(DesugarSendSynch(n, data, cont, x), acc, cx, State(st.free, st.supply + 1))
  }

  function NormChoice(branches: seq<Branch>, acc: Par, cx: Context, st: State): Result<Out>
    decreases 2 + WBranches(branches), 0
  {
    ChoiceWeight(branches);
    NormProc(DesugarChoice(branches), acc, cx, st)
  }

  function NormInput(receipts: seq<Receipt>, body: Proc, acc: Par, cx: Context, st: State): Result<Out>
    decreases WProc(PInput(receipts, body)), 6
  {
    if |receipts| > 1 then
      NestWeight(receipts, body);
      NormProc(NestReceipts(receipts, body), acc, cx, st)
    else if receipts == [] then Err(SyntaxError)
    else
      assert receipts == [receipts[0]];
      OneReceiptWeight(receipts[0], body);
      NormReceipt(receipts[0], body, acc, cx, st)
  }

  function NormLet(d: Decl, ds: Decls, body: Proc, acc: Par, cx: Context, st: State): Result<Out>
    decreases WProc(PLet(d, ds, body)), 0
  {
    match ds
    case EmptyDecls => NormLetMatch(d, body, acc, cx, st)
    case LinearDecls(more) =>
      LetContinuationWeight(d, more, body);
      NormLetMatch(d, LetContinuation(more, body), acc, cx, st)
    case ConcDecls(more) =>
      ConcLetWeight(d, more, body, st.supply);
      NormProc(DesugarConcLet([d] + more, body, st.supply), acc, cx, State(st.free, st.supply + 1 + |more|))
  }

  /** First to last, the free map of each feeding the next. */
  function NormProcs(ps: seq<Proc>, cx: Context, st: State): Result<Outs>
    decreases WProcs(ps), 0
  {
    if ps == [] then Ok(Outs([], st))
    else
      var first :- NormProc(ps[0], Nil, cx, st);
      var rest :- NormProcs(ps[1..], cx, first.st);
      Ok(Outs([first.par] + rest.pars, rest.st))
  }

  /** Last to first, as for the data of a send and the arguments of a method. */
  function NormProcsBackward(ps: seq<Proc>, cx: Context, st: State): Result<Outs>
    decreases WProcs(ps), 0
  {
    if ps == [] then Ok(Outs([], st))
    else
      var init, last := ps[..|ps| - 1], ps[|ps| - 1];
      assert ps == init + [last];
      WProcsAppend(init, last);
      var r :- NormProc(last, Nil, cx, st);
      var rest :- NormProcsBackward(init, cx, r.st);
      Ok(Outs(rest.pars + [r.par], rest.st))
  }

  /** Patterns of a receive or `let`; `guarded` refuses invalid connectives after each. */
  function NormNames(ns: seq<Name>, guarded: bool, cx: Context, st: State): Result<Outs>
    decreases WNames(ns), 0
  {
    if ns == [] then Ok(Outs([], st))
    else
      var first :- NormName(ns[0], cx, st);
      if guarded && InvalidInPattern(first.st.free) then Err(PatternReceiveError)
      else
        var rest :- NormNames(ns[1..], guarded, cx, first.st);
        Ok(Outs([first.par] + rest.pars, rest.st))
  }

  /** The match target is normalized into the incoming accumulator. */
  function NormIf(cond: Proc, body: Proc, otherwise: Proc, acc: Par, cx: Context, st: State): Result<Out>
    decreases WProc(cond) + WProc(body) + WProc(otherwise) + 1, 0
  {
    var target :- NormProc(cond, acc, cx, st);
    var t :- NormProc(body, Nil, cx, target.st);
    var f :- NormProc(otherwise, Nil, cx, t.st);
    var m := Match(
      target.par,
      [MatchCase(FromExpr(GBool(true)), t.par, 0), MatchCase(FromExpr(GBool(false)), f.par, 0)],
      target.par.connectiveUsed || t.par.connectiveUsed || f.par.connectiveUsed);
    Ok(Out(PrependMatch(acc, m), f.st))
  }

  datatype CaseOuts = CaseOuts(cases: seq<MatchCase>, connectiveUsed: bool, st: State)

  function NormCases(cases: seq<Case>, cx: Context, st: State): Result<CaseOuts>
    decreases WCases(cases), 0
  {
    if cases == [] then Ok(CaseOuts([], false, st))
    else
      assert WCases(cases) == WCase(cases[0]) + WCases(cases[1..]);
      var pat :- NormProc(cases[0].pattern, Nil, cx.Push(), st.(free := EmptyFreeMap));
      var body :- NormProc(cases[0].body, Nil, cx.AbsorbFree(pat.st.free), st.(supply := pat.st.supply));
      var rest :- NormCases(cases[1..], cx, body.st);
      Ok(CaseOuts(
           [MatchCase(pat.par, body.par, pat.st.free.nextLevel)] + rest.cases,
           body.par.connectiveUsed || rest.connectiveUsed,
           rest.st))
  }

  function NormContr(
    n: Name, formals: seq<Name>, remainder: Remainder, body: Proc, acc: Par, cx: Context, st: State): Result<Out>
    decreases WName(n) + WNames(formals) + WProc(body) + 1, 0
  {
    var name :- NormName(n, cx, st);
    var fs :- NormNames(formals, cx.Depth() == 0, cx.Push(), State(EmptyFreeMap, name.st.supply));
    FinishContr(name, fs, remainder, body, acc, cx)
  }

  /** Normalize the body of a contract under its formals and remainder. */
  function FinishContr(name: Out, fs: Outs, remainder: Remainder, body: Proc, acc: Par, cx: Context): Result<Out>
    decreases WProc(body), 10
  {
    var rest :- NormRemainder(remainder, fs.st.free);
    var count := rest.free.nextLevel;
    var b :- NormProc(body, Nil, cx.AbsorbFree(rest.free), State(name.st.free, fs.st.supply));
    var bind := ReceiveBind(fs.pars, name.par, rest.v, count);
    Ok(Out(
         PrependReceive(
           acc, Receive([bind], b.par, true, false, count, name.par.connectiveUsed || b.par.connectiveUsed)),
         b.st))
  }

  function NormReceipt(r: Receipt, body: Proc, acc: Par, cx: Context, st: State): Result<Out>
    decreases 1 + WReceipt(r) + WProc(body), 5
  {
    match r
    case ReceiptLinear(bs) =>
      if IsComplex(bs) then
        var c := DesugarComplex(bs, body, st.supply);
        ComplexWeight(bs, body, st.supply);
        OneReceiptWeight(r, body);
        NormProc(Assemble(c), acc, cx, st.(supply := c.supply))
      else
        SimpleBindsWeight(bs);
        NormReceive(SimpleBinds(bs), false, false, body, acc, cx, st)
    case ReceiptRepeated(bs) => NormReceive(bs, true, false, body, acc, cx, st)
    case ReceiptPeek(bs) => NormReceive(bs, false, true, body, acc, cx, st)
  }

  datatype BindOuts = BindOuts(binds: seq<(ReceiveBind, FreeMap)>, supply: nat)

  /** Each bind's patterns start from an empty free map. */
  function NormBinds(bs: seq<NameBind>, sources: seq<Par>, cx: Context, supply: nat): Result<BindOuts>
    requires |sources| == |bs|
    decreases WBinds(bs), 0
  {
    if bs == [] then Ok(BindOuts([], supply))
    else
      assert WBinds(bs) == WBind(bs[0]) + WBinds(bs[1..]);
      var ps :- NormNames(bs[0].names, cx.Depth() == 0, cx.Push(), State(EmptyFreeMap, supply));
      var r :- NormRemainder(bs[0].remainder, ps.st.free);
      var rest :- NormBinds(bs[1..], sources[1..], cx, ps.st.supply);
      Ok(BindOuts([(ReceiveBind(ps.pars, sources[0], r.v, r.free.nextLevel), r.free)] + rest.binds, rest.supply))
  }

  function NormSources(bs: seq<NameBind>, cx: Context, st: State): (r: Result<Outs>)
    ensures r.Ok? ==> |r.value.pars| == |bs|
    decreases WBinds(bs), 0
  {
    if bs == [] then Ok(Outs([], st))
    else
      assert WBinds(bs) == WBind(bs[0]) + WBinds(bs[1..]);
      var first :- NormName(bs[0].source, cx, st);
      var rest :- NormSources(bs[1..], cx, first.st);
      Ok(Outs([first.par] + rest.pars, rest.st))
  }

  function NormReceive(
    bs: seq<NameBind>, persistent: bool, peek: bool, body: Proc, acc: Par, cx: Context, st: State): Result<Out>
    decreases 1 + WBinds(bs) + WProc(body), 4
  {
    var sources :- NormSources(bs, cx, st);
    var binds :- NormBinds(bs, sources.pars, cx, sources.st.supply);
    FinishReceive(sources, binds, persistent, peek, body, acc, cx)
  }

  /** Sort the binds, refuse a repeated channel or name, and normalize the body under what they bind. */
  function FinishReceive(
    sources: Outs, binds: BindOuts, persistent: bool, peek: bool, body: Proc, acc: Par, cx: Context): Result<Out>
    decreases WProc(body), 10
  {
    var sorted := SortBindsWith(binds.binds);
    if RepeatedChannel(BindsOf(sorted)) then Err(ReceiveOnSameChannels)
    else
      var fm :- MergeFreeMaps(EmptyFreeMap, FreeMapsOf(sorted));
      var b :- NormProc(body, Nil, cx.AbsorbFree(fm), sources.st.(supply := binds.supply));
      Ok(Out(
           PrependReceive(
             acc,
             Receive(BindsOf(sorted), b.par, persistent, peek, fm.nextLevel,
                     AnyConnectiveUsed(sources.pars) || b.par.connectiveUsed)),
           b.st))
  }

  /** One `let` declaration: match the list of values against the list of patterns. */
  function NormLetMatch(d: Decl, continuation: Proc, acc: Par, cx: Context, st: State): Result<Out>
    decreases 19 + WDecl(d) + WProc(continuation), 0
  {
    var values :- NormProcs(d.procs, cx, st);
    var rest :- NormRemainder(d.remainder, EmptyFreeMap);
    var names :- NormNames(d.names, false, cx.Push(), State(rest.free, values.st.supply));
    FinishLet(values, rest.v, names, continuation, acc, cx)
  }

  function FinishLet(values: Outs, rest: Option<Var>, names: Outs, continuation: Proc, acc: Par, cx: Context): Result<Out>
    decreases WProc(continuation), 10
  {
    var value := FromExpr(EList(values.pars, None, AnyConnectiveUsed(values.pars)));
    var pattern := FromExpr(EList(names.pars, rest, true));
    var fm := names.st.free;
    var c :- NormProc(continuation, Nil, cx.AbsorbFree(fm), State(values.st.free, names.st.supply));
    var m := Match(value, [MatchCase(pattern, c.par, fm.nextLevel)], value.connectiveUsed || c.par.connectiveUsed);
    Ok(Out(PrependMatch(acc, m), c.st))
  }

  datatype ExprOut = ExprOut(expr: Expr, st: State)

  function NormCollection(c: Collection, cx: Context, st: State): Result<ExprOut>
    decreases WCollection(c), 1
  {
    match c
    case CollectList(ps, r) =>
      var rest :- NormRemainder(r, st.free);
      var s :- NormProcs(ps, cx, st.(free := rest.free));
      Ok(ExprOut(EList(s.pars, rest.v, AnyConnectiveUsed(s.pars) || rest.v.Some?), s.st))
    case CollectTuple(p, ps) =>
      assert ([p] + ps)[1..] == ps;
      var s :- NormProcs([p] + ps, cx, st);
      Ok(ExprOut(ETuple(s.pars, AnyConnectiveUsed(s.pars)), s.st))
    case CollectSet(ps, r) =>
      var rest :- NormRemainder(r, st.free);
      var s :- NormProcs(ps, cx, st.(free := rest.free));
      Ok(ExprOut(ESet(s.pars, rest.v, AnyConnectiveUsed(s.pars) || rest.v.Some?), s.st))
    case CollectMap(kvs, r) =>
      var rest :- NormRemainder(r, st.free);
      var s :- NormKeyValues(kvs, cx, st.(free := rest.free));
      Ok(ExprOut(EMap(s.kvs, rest.v, s.connectiveUsed), s.st))
  }

  datatype KeyValueOuts = KeyValueOuts(kvs: seq<KeyValue>, connectiveUsed: bool, st: State)

  function NormKeyValues(kvs: seq<KeyValuePair>, cx: Context, st: State): Result<KeyValueOuts>
    decreases WKeyValues(kvs), 0
  {
    if kvs == [] then Ok(KeyValueOuts([], false, st))
    else
      assert WKeyValues(kvs) == WKeyValue(kvs[0]) + WKeyValues(kvs[1..]);
      var k :- NormProc(kvs[0].key, Nil, cx, st);
      var v :- NormProc(kvs[0].value, Nil, cx, k.st);
      var rest :- NormKeyValues(kvs[1..], cx, v.st);
      Ok(KeyValueOuts(
           [KeyValue(k.par, v.par)] + rest.kvs,
           k.par.connectiveUsed || v.par.connectiveUsed || rest.connectiveUsed,
           rest.st))
  }

  // ----- the compiler entry points

  /** `normalize_term`: no free names, connectives or wildcards may be left. */
  function NormalizeTerm(p: Proc, env: seq<Injection>, supply: nat): Result<Par> {
    var r :- NormProc(p, Nil, Context([EmptyBoundMap], env), State(EmptyFreeMap, supply));
    var fm := r.st.free;
    if fm.Count() <= 0 then Ok(r.par)
    else if fm.wildcards == 0 && fm.connectives == [] then Err(TopLevelFreeVariables)
    else if fm.connectives != [] then Err(TopLevelConnectives)
    else Err(TopLevelWildcards)
  }

  datatype Compiled = Compiled(par: Par) | Refused(error: NormError) | IllScoped | NotClosed

  /** `ast_to_adt`: normalize, sort, then check scoping and closedness. */
  function AstToAdt(p: Proc, env: seq<Injection>, supply: nat): Compiled {
    match NormalizeTerm(p, env, supply)
    case Err(e) => Refused(e)
    case Ok(par) =>
      var sorted := SortPar(par).term;
      if !WellScoped(0, sorted) then IllScoped
      else if !IsClosed(sorted) then NotClosed
      else Compiled(sorted)
  }
}
