/** Two classes of source trees that the desugarings stay within. Plain trees use
    negation, disjunction and `matches` in pattern positions only: these three discard
    the free names of their operands, so elsewhere they hide free variables from
    the normalizer's books. Map-free trees hold no map literal anywhere. */
module Dialects {
  import opened ProcAst
  import opened Desugar

  /** Which trees are meant: those that use negation, disjunction and `matches` in pattern position only, or
      those without a map literal. */
  datatype Dialect = PlainTrees | MapFree

  predicate FitsProc(d: Dialect, p: Proc)
    decreases p
  {
    match p
    case PNegation(q) => d.MapFree? && FitsProc(d, q)
    case PDisjunction(l, r) => d.MapFree? && FitsProc(d, l) && FitsProc(d, r)
    case PMatches(l, r) => d.MapFree? && FitsProc(d, l) && FitsProc(d, r)
    case PCollect(c) => FitsCollection(d, c)
    case PConjunction(l, r) => FitsProc(d, l) && FitsProc(d, r)
    case PEval(n) => FitsName(d, n)
    case PMethod(t, _, args) => FitsProc(d, t) && FitsProcs(d, args)
    case PExprs(q) => FitsProc(d, q)
    case PNot(q) => FitsProc(d, q)
    case PNeg(q) => FitsProc(d, q)
    case PBinary(_, l, r) => FitsProc(d, l) && FitsProc(d, r)
    case PSend(n, _, data) => FitsName(d, n) && FitsProcs(d, data)
    case PContr(n, formals, _, body) => FitsName(d, n) && FitsPatterns(d, formals) && FitsProc(d, body)
    case PInput(rs, body) => FitsReceipts(d, rs) && FitsProc(d, body)
    case PChoice(bs) => FitsBranches(d, bs)
    case PMatch(t, cases) => FitsProc(d, t) && FitsCases(d, cases)
    case PBundle(_, body) => FitsProc(d, body)
    case PLet(x, xs, body) => FitsDecl(d, x) && FitsDecls(d, xs) && FitsProc(d, body)
    case PIf(c, t) => FitsProc(d, c) && FitsProc(d, t)
    case PIfElse(c, t, e) => FitsProc(d, c) && FitsProc(d, t) && FitsProc(d, e)
    case PNew(_, body) => FitsProc(d, body)
    case PSendSynch(n, data, cont) => FitsName(d, n) && FitsProcs(d, data) && (cont.NonEmptyCont? ==> FitsProc(d, cont.p))
    case PPar(l, r) => FitsProc(d, l) && FitsProc(d, r)
    case _ => true
  }

  predicate FitsName(d: Dialect, n: Name)
    decreases n
  {
    n.NameQuote? ==> FitsProc(d, n.p)
  }

  /** Plain trees may use anything in their patterns. */
  predicate FitsPatterns(d: Dialect, ns: seq<Name>)
    decreases ns
  {
    d.MapFree? ==> forall i | 0 <= i < |ns| :: FitsName(d, ns[i])
  }

  predicate FitsProcs(d: Dialect, ps: seq<Proc>)
    decreases ps
  {
    forall i | 0 <= i < |ps| :: FitsProc(d, ps[i])
  }

  predicate FitsCollection(d: Dialect, c: Collection)
    decreases c
  {
    match c
    case CollectList(ps, _) => FitsProcs(d, ps)
    case CollectTuple(p, rest) => FitsProc(d, p) && FitsProcs(d, rest)
    case CollectSet(ps, _) => FitsProcs(d, ps)
    case CollectMap(kvs, _) => d.PlainTrees? && FitsKeyValues(d, kvs)
  }

  predicate FitsKeyValue(d: Dialect, kv: KeyValuePair)
    decreases kv
  {
    FitsProc(d, kv.key) && FitsProc(d, kv.value)
  }

  predicate FitsKeyValues(d: Dialect, kvs: seq<KeyValuePair>)
    decreases kvs
  {
    forall i | 0 <= i < |kvs| :: FitsKeyValue(d, kvs[i])
  }

  predicate FitsCase(d: Dialect, c: Case)
    decreases c
  {
    (d.MapFree? ==> FitsProc(d, c.pattern)) && FitsProc(d, c.body)
  }

  predicate FitsCases(d: Dialect, cs: seq<Case>)
    decreases cs
  {
    forall i | 0 <= i < |cs| :: FitsCase(d, cs[i])
  }

  predicate FitsLinear(d: Dialect, b: LinearBind)
    decreases b
  {
    FitsPatterns(d, b.names) && FitsName(d, b.source.n) && (b.source.SendReceiveSource? ==> FitsProcs(d, b.source.ps))
  }

  predicate FitsLinears(d: Dialect, bs: seq<LinearBind>)
    decreases bs
  {
    forall i | 0 <= i < |bs| :: FitsLinear(d, bs[i])
  }

  predicate FitsBind(d: Dialect, b: NameBind)
    decreases b
  {
    FitsPatterns(d, b.names) && FitsName(d, b.source)
  }

  predicate FitsBinds(d: Dialect, bs: seq<NameBind>)
    decreases bs
  {
    forall i | 0 <= i < |bs| :: FitsBind(d, bs[i])
  }

  predicate FitsReceipt(d: Dialect, r: Receipt)
    decreases r
  {
    if r.ReceiptLinear? then FitsLinears(d, r.linear) else FitsBinds(d, r.binds)
  }

  predicate FitsReceipts(d: Dialect, rs: seq<Receipt>)
    decreases rs
  {
    forall i | 0 <= i < |rs| :: FitsReceipt(d, rs[i])
  }

  predicate FitsBranch(d: Dialect, b: Branch)
    decreases b
  {
    FitsLinears(d, b.binds) && FitsProc(d, b.body)
  }

  predicate FitsBranches(d: Dialect, bs: seq<Branch>)
    decreases bs
  {
    forall i | 0 <= i < |bs| :: FitsBranch(d, bs[i])
  }

  predicate FitsDecl(d: Dialect, x: Decl)
    decreases x
  {
    FitsPatterns(d, x.names) && FitsProcs(d, x.procs)
  }

  predicate FitsDeclSeq(d: Dialect, ds: seq<Decl>)
    decreases ds
  {
    forall i | 0 <= i < |ds| :: FitsDecl(d, ds[i])
  }

  predicate FitsDecls(d: Dialect, ds: Decls)
    decreases ds
  {
    !ds.EmptyDecls? ==> FitsDeclSeq(d, ds.decls)
  }

  // ----- the desugarings stay within a dialect

  lemma {:induction false} ChoiceFits(d: Dialect, bs: seq<Branch>)
    requires FitsBranches(d, bs)
    ensures FitsProc(d, DesugarChoice(bs))
  {
    if bs != [] {
      assert FitsBranch(d, bs[0]);
      OneReceiptFits(d, ReceiptLinear(bs[0].binds), bs[0].body);
      if |bs| > 1 { ChoiceFits(d, bs[1..]); }
    }
  }

  lemma OneReceiptFits(d: Dialect, r: Receipt, body: Proc)
    requires FitsReceipt(d, r) && FitsProc(d, body)
    ensures FitsProc(d, PInput([r], body))
  {
    hide FitsReceipt;
    assert FitsReceipts(d, [r]);
  }

  lemma ReplySendFits(d: Dialect, n: Name, x: Ident, ps: seq<Proc>)
    requires FitsName(d, n) && FitsProcs(d, ps)
    ensures FitsProc(d, PSend(n, false, [PEval(NameVar(x))] + ps))
  {
    assert FitsProc(d, PEval(NameVar(x)));
    assert FitsProcs(d, [PEval(NameVar(x))] + ps);
  }

  lemma SendSynchFits(d: Dialect, n: Name, data: seq<Proc>, cont: SynchSendCont, x: Ident)
    requires FitsProc(d, PSendSynch(n, data, cont))
    ensures FitsProc(d, DesugarSendSynch(n, data, cont, x))
  {
    hide FitsProcs, FitsLinears, FitsReceipts, AwaitAck;
    ReplySendFits(d, n, x, data);
    AwaitAckFits(d, cont, x);
  }

  lemma AwaitAckFits(d: Dialect, cont: SynchSendCont, x: Ident)
    requires cont.NonEmptyCont? ==> FitsProc(d, cont.p)
    ensures FitsProc(d, AwaitAck(cont, x))
  {
    var bind := LinearBind([NameWildcard], RemainderEmpty, SimpleSource(NameVar(x)));
    assert FitsPatterns(d, [NameWildcard]) && FitsName(d, NameVar(x));
    assert FitsLinear(d, bind);
    assert FitsLinears(d, [bind]);
    OneReceiptFits(d, ReceiptLinear([bind]), ContinuationOf(cont));
  }

  lemma {:induction false} NestFits(d: Dialect, rs: seq<Receipt>, body: Proc)
    requires FitsReceipts(d, rs) && FitsProc(d, body)
    ensures FitsProc(d, NestReceipts(rs, body))
  {
    hide FitsReceipt, FitsProc;
    if rs != [] {
      NestFits(d, rs[1..], body);
      OneReceiptFits(d, rs[0], NestReceipts(rs[1..], body));
    }
  }

  lemma {:induction false} SendsThenFits(d: Dialect, sends: seq<Proc>, last: Proc)
    requires FitsProcs(d, sends) && FitsProc(d, last)
    ensures FitsProc(d, SendsThen(sends, last))
  {
    if sends != [] {
      SendsThenFits(d, sends[1..], last);
    }
  }

  predicate FitsComplex(d: Dialect, c: Complex) {
    FitsProcs(d, c.sends) && FitsLinears(d, c.binds) && FitsProc(d, c.continuation)
  }

  lemma ComplexStepFits(d: Dialect, b: LinearBind, acc: Complex)
    requires FitsLinear(d, b) && FitsComplex(d, acc)
    ensures FitsComplex(d, ComplexStep(b, acc))
  {
    var x := Fresh(acc.supply);
    match b.source
    case SimpleSource(_) =>
    case ReceiveSendSource(n) =>
      assert FitsLinear(d, LinearBind([NameVar(x)] + b.names, b.remainder, SimpleSource(n)));
      assert FitsProcs(d, []);
      assert FitsProc(d, PSend(NameVar(x), false, []));
    case SendReceiveSource(n, ps) =>
      assert FitsLinear(d, LinearBind(b.names, b.remainder, SimpleSource(NameVar(x))));
      ReplySendFits(d, n, x, ps);
  }

  lemma {:induction false} ComplexFoldFits(d: Dialect, bs: seq<LinearBind>, acc: Complex)
    requires FitsLinears(d, bs) && FitsComplex(d, acc)
    ensures FitsComplex(d, ComplexFold(bs, acc))
    decreases |bs|
  {
    hide FitsComplex, FitsLinear;
    if bs != [] {
      ComplexStepFits(d, bs[0], acc);
      ComplexFoldFits(d, bs[1..], ComplexStep(bs[0], acc));
    }
  }

  lemma ComplexFits(d: Dialect, bs: seq<LinearBind>, body: Proc, supply: nat)
    requires FitsLinears(d, bs) && FitsProc(d, body)
    ensures FitsProc(d, Assemble(DesugarComplex(bs, body, supply)))
  {
    hide ComplexFold, SendsThen, FitsProcs, FitsLinears;
    assert FitsProcs(d, []) && FitsLinears(d, []) by { NoneFits(d); }
    ComplexFoldFits(d, bs, Complex([], [], [], body, supply));
    var c := DesugarComplex(bs, body, supply);
    OneReceiptFits(d, ReceiptLinear(c.binds), c.continuation);
    SendsThenFits(d, c.sends, PInput([ReceiptLinear(c.binds)], c.continuation));
  }

  lemma NoneFits(d: Dialect)
    ensures FitsProcs(d, []) && FitsLinears(d, [])
  {
  }

  lemma {:induction false} SimpleBindsFits(d: Dialect, bs: seq<LinearBind>)
    requires FitsLinears(d, bs)
    ensures FitsBinds(d, SimpleBinds(bs))
  {
    hide FitsName;
    if bs != [] {
      assert FitsLinear(d, bs[0]);
      SimpleBindsFits(d, bs[1..]);
    }
  }

  lemma LetContinuationFits(d: Dialect, ds: seq<Decl>, body: Proc)
    requires FitsDeclSeq(d, ds) && FitsProc(d, body)
    ensures FitsProc(d, LetContinuation(ds, body))
  {
    hide FitsProcs;
    if ds != [] {
      assert FitsDecl(d, ds[0]);
      assert FitsDeclSeq(d, ds[1..]);
    }
  }

  lemma {:induction false} ConcFits(d: Dialect, ds: seq<Decl>, supply: nat)
    requires FitsDeclSeq(d, ds)
    ensures FitsProcs(d, ConcSends(ds, supply)) && FitsLinears(d, ConcBinds(ds, supply))
    decreases |ds|
  {
    if ds != [] {
      ConcFits(d, ds[1..], supply + 1);
      assert FitsDecl(d, ds[0]);
      var x := NameVar(Fresh(supply));
      assert FitsProc(d, PSend(x, false, ds[0].procs));
      assert FitsLinear(d, LinearBind(ds[0].names, ds[0].remainder, SimpleSource(x)));
    }
  }

  lemma ConcLetFits(d: Dialect, x: Decl, ds: seq<Decl>, body: Proc, supply: nat)
    requires FitsDecl(d, x) && FitsDeclSeq(d, ds) && FitsProc(d, body)
    ensures FitsProc(d, DesugarConcLet([x] + ds, body, supply))
  {
    hide ConcSends, ConcBinds, SendsThen, FitsProcs, FitsLinears;
    var all := [x] + ds;
    assert FitsDeclSeq(d, all) by { hide FitsDecl; }
    ConcFits(d, all, supply);
    OneReceiptFits(d, ReceiptLinear(ConcBinds(all, supply)), body);
    SendsThenFits(d, ConcSends(all, supply), PInput([ReceiptLinear(ConcBinds(all, supply))], body));
  }
}
