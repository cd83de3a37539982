/** The desugarings of the normalizer, which build new source trees before
    normalizing them, and the weight that each of them lowers even though the
    tree it builds is larger. */
module Desugar {
  import opened ProcAst

  // ----- the weight

  ghost function WProc(p: Proc): nat
    decreases p
  {
    match p
    case PGround(_) => 1
    case PVar(_) => 1
    case PVarRef(_, _) => 1
    case PNil => 1
    case PSimpleType(_) => 1
    case PCollect(c) => 1 + WCollection(c)
    case PNegation(q) => 1 + WProc(q)
    case PConjunction(l, r) => 1 + WProc(l) + WProc(r)
    case PDisjunction(l, r) => 1 + WProc(l) + WProc(r)
    case PEval(n) => 1 + WName(n)
    case PMethod(t, _, args) => 1 + WProc(t) + WProcs(args)
    case PExprs(q) => 1 + WProc(q)
    case PNot(q) => 1 + WProc(q)
    case PNeg(q) => 1 + WProc(q)
    case PBinary(_, l, r) => 1 + WProc(l) + WProc(r)
    case PMatches(l, r) => 1 + WProc(l) + WProc(r)
    case PSend(n, _, data) => 1 + WName(n) + WProcs(data)
    case PContr(n, formals, _, body) => 1 + WName(n) + WNames(formals) + WProc(body)
    case PInput(rs, body) => WReceipts(rs) + WProc(body) + if |rs| == 1 then 0 else 1
    case PChoice(bs) => 2 + WBranches(bs)
    case PMatch(t, cases) => 1 + WProc(t) + WCases(cases)
    case PBundle(_, body) => 1 + WProc(body)
    case PLet(d, ds, body) => 20 + WDecl(d) + WDecls(ds) + WProc(body)
    case PIf(c, t) => 2 + WProc(c) + WProc(t)
    case PIfElse(c, t, e) => 2 + WProc(c) + WProc(t) + WProc(e)
    case PNew(_, body) => 1 + WProc(body)
    case PSendSynch(n, data, cont) => 14 + WName(n) + WProcs(data) + WCont(cont)
    case PPar(l, r) => 1 + WProc(l) + WProc(r)
  }

  ghost function WProcs(ps: seq<Proc>): nat
    decreases ps
  {
    if ps == [] then 0 else 1 + WProc(ps[0]) + WProcs(ps[1..])
  }

  ghost function WName(n: Name): nat
    decreases n
  {
    if n.NameQuote? then 1 + WProc(n.p) else 1
  }

  ghost function WNames(ns: seq<Name>): nat
    decreases ns
  {
    if ns == [] then 0 else 1 + WName(ns[0]) + WNames(ns[1..])
  }

  ghost function WCollection(c: Collection): nat
    decreases c
  {
    match c
    case CollectList(ps, _) => WProcs(ps)
    case CollectTuple(p, rest) => 1 + WProc(p) + WProcs(rest)
    case CollectSet(ps, _) => WProcs(ps)
    case CollectMap(kvs, _) => WKeyValues(kvs)
  }

  ghost function WKeyValue(kv: KeyValuePair): nat
    decreases kv
  {
    1 + WProc(kv.key) + WProc(kv.value)
  }

  ghost function WKeyValues(kvs: seq<KeyValuePair>): nat
    decreases kvs
  {
    if kvs == [] then 0 else WKeyValue(kvs[0]) + WKeyValues(kvs[1..])
  }

  ghost function WCase(c: Case): nat
    decreases c
  {
    1 + WProc(c.pattern) + WProc(c.body)
  }

  ghost function WCases(cs: seq<Case>): nat
    decreases cs
  {
    if cs == [] then 0 else WCase(cs[0]) + WCases(cs[1..])
  }

  ghost function WSource(s: NameSource): nat
    decreases s
  {
    match s
    case SimpleSource(n) => 1 + WName(n)
    case ReceiveSendSource(n) => 7 + WName(n)
    case SendReceiveSource(n, ps) => 9 + WName(n) + WProcs(ps)
  }

  ghost function WLinear(b: LinearBind): nat
    decreases b
  {
    1 + WNames(b.names) + WSource(b.source)
  }

  ghost function WLinears(bs: seq<LinearBind>): nat
    decreases bs
  {
    if bs == [] then 0 else WLinear(bs[0]) + WLinears(bs[1..])
  }

  ghost function WBind(b: NameBind): nat
    decreases b
  {
    2 + WNames(b.names) + WName(b.source)
  }

  ghost function WBinds(bs: seq<NameBind>): nat
    decreases bs
  {
    if bs == [] then 0 else WBind(bs[0]) + WBinds(bs[1..])
  }

  ghost function WReceipt(r: Receipt): nat
    decreases r
  {
    match r
    case ReceiptLinear(bs) => WLinears(bs)
    case ReceiptRepeated(bs) => WBinds(bs)
    case ReceiptPeek(bs) => WBinds(bs)
  }

  ghost function WReceipts(rs: seq<Receipt>): nat
    decreases rs
  {
    if rs == [] then 0 else 1 + WReceipt(rs[0]) + WReceipts(rs[1..])
  }

  ghost function WBranch(b: Branch): nat
    decreases b
  {
    2 + WLinears(b.binds) + WProc(b.body)
  }

  ghost function WBranches(bs: seq<Branch>): nat
    decreases bs
  {
    if bs == [] then 0 else WBranch(bs[0]) + WBranches(bs[1..])
  }

  ghost function WDecl(d: Decl): nat
    decreases d
  {
    WNames(d.names) + WProcs(d.procs)
  }

  ghost function WDeclSeq(ds: seq<Decl>): nat
    decreases ds
  {
    if ds == [] then 0 else 20 + WDecl(ds[0]) + WDeclSeq(ds[1..])
  }

  ghost function WDecls(ds: Decls): nat
    decreases ds
  {
    if ds.EmptyDecls? then 0 else WDeclSeq(ds.decls)
  }

  ghost function WCont(c: SynchSendCont): nat
    decreases c
  {
    if c.EmptyCont? then 1 else WProc(c.p)
  }

  // ----- select

  function ReceiveOf(b: Branch): Proc {
    PInput([ReceiptLinear(b.binds)], b.body)
  }

  /** `select` as the parallel composition of one receive per branch. */
  function DesugarChoice(bs: seq<Branch>): Proc {
    if bs == [] then PNil
    else if |bs| == 1 then ReceiveOf(bs[0])
    else PPar(ReceiveOf(bs[0]), DesugarChoice(bs[1..]))
  }

  lemma {:induction false} ChoiceWeight(bs: seq<Branch>)
    ensures WProc(DesugarChoice(bs)) < 2 + WBranches(bs)
  {
    if bs != [] {
      var b := bs[0];
      OneReceiptWeight(ReceiptLinear(b.binds), b.body);
      if |bs| > 1 { ChoiceWeight(bs[1..]); }
    }
  }

  lemma OneReceiptWeight(r: Receipt, body: Proc)
    ensures WProc(PInput([r], body)) == 1 + WReceipt(r) + WProc(body)
  {
    assert [r][1..] == [];
    assert WReceipts([r]) == 1 + WReceipt(r) + WReceipts([]);
  }

  lemma ReplySendWeight(n: Name, x: Ident, ps: seq<Proc>)
    ensures WProc(PSend(n, false, [PEval(NameVar(x))] + ps)) == 4 + WName(n) + WProcs(ps)
  {
    var first := PEval(NameVar(x));
    assert ([first] + ps)[1..] == ps && WName(NameVar(x)) == 1 && WProc(first) == 2;
    assert WProcs([first] + ps) == 3 + WProcs(ps);
  }

  lemma NotifyWeight(x: Ident, p: Proc)
    ensures WProc(PPar(PSend(NameVar(x), false, []), p)) == 3 + WProc(p)
  {
    assert WProc(PSend(NameVar(x), false, [])) == 2;
  }

  lemma FreshBindWeight(names: seq<Name>, r: Remainder, x: Ident)
    ensures WLinear(LinearBind(names, r, SimpleSource(NameVar(x)))) == 3 + WNames(names)
  {
    assert WSource(SimpleSource(NameVar(x))) == 2;
  }

  lemma WNamesPrepend(n: Name, ns: seq<Name>)
    ensures WNames([n] + ns) == 1 + WName(n) + WNames(ns)
  {
    assert ([n] + ns)[1..] == ns;
  }

  lemma OneLinearWeight(b: LinearBind)
    ensures WLinears([b]) == WLinear(b)
  {
    assert [b][1..] == [];
  }

  // ----- synchronous send

  function ContinuationOf(cont: SynchSendCont): Proc {
    if cont.EmptyCont? then PNil else cont.p
  }

  /** The receive on the fresh name that releases the continuation. */
  function AwaitAck(cont: SynchSendCont, x: Ident): Proc {
    var bind := LinearBind([NameWildcard], RemainderEmpty, SimpleSource(NameVar(x)));
    PInput([ReceiptLinear([bind])], ContinuationOf(cont))
  }

  /** `n!?(data).cont`: send a fresh name along and wait on it. */
  function DesugarSendSynch(n: Name, data: seq<Proc>, cont: SynchSendCont, x: Ident): Proc {
    PNew([NameDeclSimpl(x)], PPar(PSend(n, false, [PEval(NameVar(x))] + data), AwaitAck(cont, x)))
  }

  lemma AwaitAckWeight(cont: SynchSendCont, x: Ident)
    ensures WProc(AwaitAck(cont, x)) == 6 + WCont(cont)
  {
    hide WProcs, WLinears;
    var bind := LinearBind([NameWildcard], RemainderEmpty, SimpleSource(NameVar(x)));
    assert [NameWildcard][1..] == [];
    assert WNames([NameWildcard]) == 2;
    FreshBindWeight([NameWildcard], RemainderEmpty, x);
    OneLinearWeight(bind);
    OneReceiptWeight(ReceiptLinear([bind]), ContinuationOf(cont));
  }

  lemma SendSynchWeight(n: Name, data: seq<Proc>, cont: SynchSendCont, x: Ident)
    ensures WProc(DesugarSendSynch(n, data, cont, x)) < WProc(PSendSynch(n, data, cont))
  {
    hide WProcs, WNames, WLinears, AwaitAck, WCont;
    AwaitAckWeight(cont, x);
    ReplySendWeight(n, x, data);
    var send := PSend(n, false, [PEval(NameVar(x))] + data);
    assert WProc(PPar(send, AwaitAck(cont, x))) == 1 + WProc(send) + WProc(AwaitAck(cont, x));
  }

  // ----- several receipts

  /** `for (r1; ...; rn) { body }` as nested single receives. */
  function NestReceipts(rs: seq<Receipt>, body: Proc): Proc {
    if rs == [] then body else PInput([rs[0]], NestReceipts(rs[1..], body))
  }

  lemma {:induction false} NestWeight(rs: seq<Receipt>, body: Proc)
    ensures WProc(NestReceipts(rs, body)) == WReceipts(rs) + WProc(body)
  {
    if rs != [] {
      NestWeight(rs[1..], body);
      OneReceiptWeight(rs[0], NestReceipts(rs[1..], body));
    }
  }

  // ----- complex sources

  /** What the loop over the binds has accumulated. */
  datatype Complex = Complex(
    sends: seq<Proc>, binds: seq<LinearBind>, decls: seq<NameDecl>, continuation: Proc, supply: nat)

  function ComplexStep(b: LinearBind, acc: Complex): Complex {
    match b.source
    case SimpleSource(_) => acc.(binds := acc.binds + [b])
    case ReceiveSendSource(n) =>
      var x := Fresh(acc.supply);
      acc.(binds := acc.binds + [LinearBind([NameVar(x)] + b.names, b.remainder, SimpleSource(n))],
           continuation := PPar(PSend(NameVar(x), false, []), acc.continuation),
           supply := acc.supply + 1)
    case SendReceiveSource(n, ps) =>
      var x := Fresh(acc.supply);
      acc.(binds := acc.binds + [LinearBind(b.names, b.remainder, SimpleSource(NameVar(x)))],
           decls := acc.decls + [NameDeclSimpl(x)],
           sends := acc.sends + [PSend(n, false, [PEval(NameVar(x))] + ps)],
           supply := acc.supply + 1)
  }

  function ComplexFold(bs: seq<LinearBind>, acc: Complex): Complex
    decreases |bs|
  {
    if bs == [] then acc else ComplexFold(bs[1..], ComplexStep(bs[0], acc))
  }

  function SendsThen(sends: seq<Proc>, last: Proc): Proc {
    if sends == [] then last else PPar(sends[0], SendsThen(sends[1..], last))
  }

  function NewUnlessEmpty(decls: seq<NameDecl>, p: Proc): Proc {
    if decls == [] then p else PNew(decls, p)
  }

  function Assemble(c: Complex): Proc {
    NewUnlessEmpty(c.decls, SendsThen(c.sends, PInput([ReceiptLinear(c.binds)], c.continuation)))
  }

  function DesugarComplex(bs: seq<LinearBind>, body: Proc, supply: nat): Complex {
    ComplexFold(bs, Complex([], [], [], body, supply))
  }

  predicate IsComplex(bs: seq<LinearBind>) {
    exists i :: 0 <= i < |bs| && !bs[i].source.SimpleSource?
  }

  lemma {:induction false} SendsThenWeight(sends: seq<Proc>, last: Proc)
    ensures WProc(SendsThen(sends, last)) == WProcs(sends) + WProc(last)
  {
    if sends != [] { SendsThenWeight(sends[1..], last); }
  }

  lemma {:induction false} WProcsAppend(ps: seq<Proc>, p: Proc)
    ensures WProcs(ps + [p]) == WProcs(ps) + 1 + WProc(p)
  {
    if ps != [] {
      assert (ps + [p])[1..] == ps[1..] + [p];
      WProcsAppend(ps[1..], p);
    } else {
      assert (ps + [p])[1..] == [];
    }
  }

  lemma {:induction false} WLinearsAppend(bs: seq<LinearBind>, b: LinearBind)
    ensures WLinears(bs + [b]) == WLinears(bs) + WLinear(b)
  {
    if bs != [] {
      assert (bs + [b])[1..] == bs[1..] + [b];
      WLinearsAppend(bs[1..], b);
    } else {
      assert (bs + [b])[1..] == [];
    }
  }

  /** Weight of everything accumulated. */
  ghost function WComplex(c: Complex): nat {
    WProcs(c.sends) + WLinears(c.binds) + WProc(c.continuation)
  }

  lemma ComplexStepWeight(b: LinearBind, acc: Complex)
    ensures b.source.SimpleSource? ==> WComplex(ComplexStep(b, acc)) == WComplex(acc) + WLinear(b)
    ensures b.source.SimpleSource? ==> ComplexStep(b, acc).decls == acc.decls
    ensures !b.source.SimpleSource? ==> WComplex(ComplexStep(b, acc)) + 1 <= WComplex(acc) + WLinear(b)
    ensures |ComplexStep(b, acc).decls| <= |acc.decls| + 1
    ensures !b.source.SendReceiveSource? ==> ComplexStep(b, acc).decls == acc.decls
    ensures b.source.SendReceiveSource? ==> WComplex(ComplexStep(b, acc)) + 2 <= WComplex(acc) + WLinear(b)
  {
    hide WProcs, WNames, WLinears;
    var x := Fresh(acc.supply);
    match b.source
    case SimpleSource(_) =>
      WLinearsAppend(acc.binds, b);
    case ReceiveSendSource(n) =>
      WLinearsAppend(acc.binds, LinearBind([NameVar(x)] + b.names, b.remainder, SimpleSource(n)));
      WNamesPrepend(NameVar(x), b.names);
      NotifyWeight(x, acc.continuation);
    case SendReceiveSource(n, ps) =>
      WLinearsAppend(acc.binds, LinearBind(b.names, b.remainder, SimpleSource(NameVar(x))));
      FreshBindWeight(b.names, b.remainder, x);
      WProcsAppend(acc.sends, PSend(n, false, [PEval(NameVar(x))] + ps));
      ReplySendWeight(n, x, ps);
  }

  /** Room left by the declarations for the `new` around them. */
  ghost function Wrapping(c: Complex): nat {
    if c.decls == [] then 0 else 1
  }

  lemma {:induction false} ComplexFoldWeight(bs: seq<LinearBind>, acc: Complex)
    ensures WComplex(ComplexFold(bs, acc)) + Wrapping(ComplexFold(bs, acc)) <= WComplex(acc) + Wrapping(acc) + WLinears(bs)
    ensures IsComplex(bs) ==>
              WComplex(ComplexFold(bs, acc)) + Wrapping(ComplexFold(bs, acc)) < WComplex(acc) + Wrapping(acc) + WLinears(bs)
    decreases |bs|
  {
    if bs != [] {
      var next := ComplexStep(bs[0], acc);
      ComplexStepWeight(bs[0], acc);
      ComplexFoldWeight(bs[1..], next);
      if IsComplex(bs) && bs[0].source.SimpleSource? {
        var i :| 0 <= i < |bs| && !bs[i].source.SimpleSource?;
        assert bs[1..][i - 1] == bs[i];
      }
    }
  }

  lemma ComplexWeight(bs: seq<LinearBind>, body: Proc, supply: nat)
    requires IsComplex(bs)
    ensures WProc(Assemble(DesugarComplex(bs, body, supply))) < WProc(PInput([ReceiptLinear(bs)], body))
  {
    var start := Complex([], [], [], body, supply);
    var c := ComplexFold(bs, start);
    ComplexFoldWeight(bs, start);
    OneReceiptWeight(ReceiptLinear(bs), body);
    OneReceiptWeight(ReceiptLinear(c.binds), c.continuation);
    SendsThenWeight(c.sends, PInput([ReceiptLinear(c.binds)], c.continuation));
  }

  // ----- receives from plain names

  function SimpleBinds(bs: seq<LinearBind>): seq<NameBind> {
    if bs == [] then [] else [NameBind(bs[0].names, bs[0].remainder, bs[0].source.n)] + SimpleBinds(bs[1..])
  }

  lemma {:induction false} SimpleBindsWeight(bs: seq<LinearBind>)
    requires !IsComplex(bs)
    ensures WBinds(SimpleBinds(bs)) == WLinears(bs)
  {
    if bs != [] {
      assert bs[0].source.SimpleSource?;
      forall i | 0 <= i < |bs[1..]| ensures bs[1..][i].source.SimpleSource? {
        assert bs[1..][i] == bs[i + 1];
      }
      SimpleBindsWeight(bs[1..]);
      assert SimpleBinds(bs)[1..] == SimpleBinds(bs[1..]);
      assert WLinear(bs[0]) == 2 + WNames(bs[0].names) + WName(bs[0].source.n);
    }
  }

  // ----- let

  /** The continuation of a sequential `let`: the remaining declarations as another `let`. */
  function LetContinuation(ds: seq<Decl>, body: Proc): Proc {
    if ds == [] then body
    else PLet(ds[0], if |ds| == 1 then EmptyDecls else LinearDecls(ds[1..]), body)
  }

  lemma LetContinuationWeight(d: Decl, ds: seq<Decl>, body: Proc)
    ensures WProc(PLet(d, LinearDecls(ds), body)) == 20 + WDecl(d) + WProc(LetContinuation(ds, body))
  {
    assert WDecls(LinearDecls(ds)) == WDeclSeq(ds);
    if ds != [] {
      assert WDeclSeq(ds) == 20 + WDecl(ds[0]) + WDeclSeq(ds[1..]);
      if |ds| > 1 {
        assert WDecls(LinearDecls(ds[1..])) == WDeclSeq(ds[1..]);
      }
    }
  }

  function ConcSends(ds: seq<Decl>, supply: nat): seq<Proc>
    decreases |ds|
  {
    if ds == [] then [] else [PSend(NameVar(Fresh(supply)), false, ds[0].procs)] + ConcSends(ds[1..], supply + 1)
  }

  function ConcBinds(ds: seq<Decl>, supply: nat): seq<LinearBind>
    decreases |ds|
  {
    if ds == [] then []
    else [LinearBind(ds[0].names, ds[0].remainder, SimpleSource(NameVar(Fresh(supply))))] + ConcBinds(ds[1..], supply + 1)
  }

  function ConcNames(ds: seq<Decl>, supply: nat): seq<NameDecl>
    decreases |ds|
  {
    if ds == [] then [] else [NameDeclSimpl(Fresh(supply))] + ConcNames(ds[1..], supply + 1)
  }

  /** Concurrent `let`: send every value on its own fresh name and receive them jointly. */
  function DesugarConcLet(ds: seq<Decl>, body: Proc, supply: nat): Proc {
    PNew(ConcNames(ds, supply),
         SendsThen(ConcSends(ds, supply), PInput([ReceiptLinear(ConcBinds(ds, supply))], body)))
  }

  lemma {:induction false} ConcWeight(ds: seq<Decl>, supply: nat)
    ensures WProcs(ConcSends(ds, supply)) + WLinears(ConcBinds(ds, supply)) + 12 * |ds| <= WDeclSeq(ds)
    decreases |ds|
  {
    if ds != [] {
      ConcWeight(ds[1..], supply + 1);
      var x := NameVar(Fresh(supply));
      var send, bind := PSend(x, false, ds[0].procs), LinearBind(ds[0].names, ds[0].remainder, SimpleSource(x));
      assert ConcSends(ds, supply)[1..] == ConcSends(ds[1..], supply + 1);
      assert ConcBinds(ds, supply)[1..] == ConcBinds(ds[1..], supply + 1);
      assert WName(x) == 1 && WProc(send) == 2 + WProcs(ds[0].procs);
      assert WSource(bind.source) == 2 && WLinear(bind) == 3 + WNames(ds[0].names);
    }
  }

  lemma ConcLetSize(d: Decl, ds: seq<Decl>, body: Proc)
    ensures WProc(PLet(d, ConcDecls(ds), body)) == WDeclSeq([d] + ds) + WProc(body)
  {
    assert ([d] + ds)[1..] == ds;
    assert WDecls(ConcDecls(ds)) == WDeclSeq(ds);
  }

  lemma NewWeight(names: seq<NameDecl>, body: Proc)
    ensures WProc(PNew(names, body)) == 1 + WProc(body)
  {
  }

  lemma LinearWeight(bs: seq<LinearBind>)
    ensures WReceipt(ReceiptLinear(bs)) <= 1 + WLinears(bs)
  {
  }

  lemma ConcLetWeight(d: Decl, ds: seq<Decl>, body: Proc, supply: nat)
    ensures WProc(DesugarConcLet([d] + ds, body, supply)) < WProc(PLet(d, ConcDecls(ds), body))
  {
    hide WProc, WReceipt, WDeclSeq, ConcSends, ConcBinds, ConcNames, WProcs, WLinears, SendsThen;
    var all := [d] + ds;
    var bs := ConcBinds(all, supply);
    var receive := PInput([ReceiptLinear(bs)], body);
    ConcLetSize(d, ds, body);
    ConcWeight(all, supply);
    LinearWeight(bs);
    OneReceiptWeight(ReceiptLinear(bs), body);
    SendsThenWeight(ConcSends(all, supply), receive);
    NewWeight(ConcNames(all, supply), SendsThen(ConcSends(all, supply), receive));
  }
}
