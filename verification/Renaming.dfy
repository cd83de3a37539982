/** Shifting the identifiers made by `fresh_identifier`: the syntax, the contexts
    and the desugarings all commute with moving every fresh identifier up
    by `k`. Two runs of the normalizer whose global counters start `k` apart
    see trees related in this way. */
module Renaming {
  import opened ScoreTree
  import opened StableSort
  import opened ProcAst
  import opened Contexts
  import opened Desugar

  function ShiftId(k: nat, x: Ident): Ident {
    if x.Fresh? then Fresh(x.n + k) else x
  }

  function ShiftVar(k: nat, v: ProcVar): ProcVar {
    if v.ProcVarVar? then ProcVarVar(ShiftId(k, v.x)) else v
  }

  function ShiftRemainder(k: nat, r: Remainder): Remainder {
    if r.RemainderVar? then RemainderVar(ShiftVar(k, r.v)) else r
  }

  function ShiftNameDecl(k: nat, d: NameDecl): NameDecl {
    d.(x := ShiftId(k, d.x))
  }

  function ShiftNameDecls(k: nat, ds: seq<NameDecl>): (r: seq<NameDecl>)
    ensures |r| == |ds| && forall i :: 0 <= i < |ds| ==> r[i] == ShiftNameDecl(k, ds[i])
  {
    seq(|ds|, i requires 0 <= i < |ds| => ShiftNameDecl(k, ds[i]))
  }

  function ShiftProc(k: nat, p: Proc): Proc
    decreases p
  {
    match p
    case PCollect(c) => PCollect(ShiftCollection(k, c))
    case PVar(v) => PVar(ShiftVar(k, v))
    case PVarRef(kind, x) => PVarRef(kind, ShiftId(k, x))
    case PNegation(q) => PNegation(ShiftProc(k, q))
    case PConjunction(l, r) => PConjunction(ShiftProc(k, l), ShiftProc(k, r))
    case PDisjunction(l, r) => PDisjunction(ShiftProc(k, l), ShiftProc(k, r))
    case PEval(n) => PEval(ShiftName(k, n))
    case PMethod(target, name, args) => PMethod(ShiftProc(k, target), name, ShiftProcs(k, args))
    case PExprs(q) => PExprs(ShiftProc(k, q))
    case PNot(q) => PNot(ShiftProc(k, q))
    case PNeg(q) => PNeg(ShiftProc(k, q))
    case PBinary(op, l, r) => PBinary(op, ShiftProc(k, l), ShiftProc(k, r))
    case PMatches(l, r) => PMatches(ShiftProc(k, l), ShiftProc(k, r))
    case PSend(n, multiple, data) => PSend(ShiftName(k, n), multiple, ShiftProcs(k, data))
    case PContr(n, formals, rem, body) =>
      PContr(ShiftName(k, n), ShiftNames(k, formals), ShiftRemainder(k, rem), ShiftProc(k, body))
    case PInput(rs, body) => PInput(ShiftReceipts(k, rs), ShiftProc(k, body))
    case PChoice(bs) => PChoice(ShiftBranches(k, bs))
    case PMatch(target, cases) => PMatch(ShiftProc(k, target), ShiftCases(k, cases))
    case PBundle(kind, body) => PBundle(kind, ShiftProc(k, body))
    case PLet(d, ds, body) => PLet(ShiftDecl(k, d), ShiftDecls(k, ds), ShiftProc(k, body))
    case PIf(c, t) => PIf(ShiftProc(k, c), ShiftProc(k, t))
    case PIfElse(c, t, e) => PIfElse(ShiftProc(k, c), ShiftProc(k, t), ShiftProc(k, e))
    case PNew(names, body) => PNew(ShiftNameDecls(k, names), ShiftProc(k, body))
    case PSendSynch(n, data, cont) => PSendSynch(ShiftName(k, n), ShiftProcs(k, data), ShiftCont(k, cont))
    case PPar(l, r) => PPar(ShiftProc(k, l), ShiftProc(k, r))
    case _ => p
  }

  function ShiftProcs(k: nat, ps: seq<Proc>): (r: seq<Proc>)
    ensures |r| == |ps| && forall i :: 0 <= i < |ps| ==> r[i] == ShiftProc(k, ps[i])
    decreases ps
  {
    seq(|ps|, i requires 0 <= i < |ps| => ShiftProc(k, ps[i]))
  }

  function ShiftName(k: nat, n: Name): Name
    decreases n
  {
    match n
    case NameWildcard => n
    case NameVar(x) => NameVar(ShiftId(k, x))
    case NameQuote(p) => NameQuote(ShiftProc(k, p))
  }

  function ShiftNames(k: nat, ns: seq<Name>): (r: seq<Name>)
    ensures |r| == |ns| && forall i :: 0 <= i < |ns| ==> r[i] == ShiftName(k, ns[i])
    decreases ns
  {
    seq(|ns|, i requires 0 <= i < |ns| => ShiftName(k, ns[i]))
  }

  function ShiftCont(k: nat, c: SynchSendCont): SynchSendCont
    decreases c
  {
    if c.NonEmptyCont? then NonEmptyCont(ShiftProc(k, c.p)) else c
  }

  function ShiftKeyValue(k: nat, kv: KeyValuePair): KeyValuePair
    decreases kv
  {
    KeyValuePair(ShiftProc(k, kv.key), ShiftProc(k, kv.value))
  }

  function ShiftKeyValues(k: nat, kvs: seq<KeyValuePair>): (r: seq<KeyValuePair>)
    ensures |r| == |kvs| && forall i :: 0 <= i < |kvs| ==> r[i] == ShiftKeyValue(k, kvs[i])
    decreases kvs
  {
    seq(|kvs|, i requires 0 <= i < |kvs| => ShiftKeyValue(k, kvs[i]))
  }

  function ShiftCollection(k: nat, c: Collection): Collection
    decreases c
  {
    match c
    case CollectList(ps, r) => CollectList(ShiftProcs(k, ps), ShiftRemainder(k, r))
    case CollectTuple(p, ps) => CollectTuple(ShiftProc(k, p), ShiftProcs(k, ps))
    case CollectSet(ps, r) => CollectSet(ShiftProcs(k, ps), ShiftRemainder(k, r))
    case CollectMap(kvs, r) => CollectMap(ShiftKeyValues(k, kvs), ShiftRemainder(k, r))
  }

  function ShiftCase(k: nat, c: Case): Case
    decreases c
  {
    Case(ShiftProc(k, c.pattern), ShiftProc(k, c.body))
  }

  function ShiftCases(k: nat, cs: seq<Case>): (r: seq<Case>)
    ensures |r| == |cs| && forall i :: 0 <= i < |cs| ==> r[i] == ShiftCase(k, cs[i])
    decreases cs
  {
    seq(|cs|, i requires 0 <= i < |cs| => ShiftCase(k, cs[i]))
  }

  function ShiftSource(k: nat, s: NameSource): NameSource
    decreases s
  {
    match s
    case SimpleSource(n) => SimpleSource(ShiftName(k, n))
    case ReceiveSendSource(n) => ReceiveSendSource(ShiftName(k, n))
    case SendReceiveSource(n, ps) => SendReceiveSource(ShiftName(k, n), ShiftProcs(k, ps))
  }

  function ShiftLinear(k: nat, b: LinearBind): LinearBind
    decreases b
  {
    LinearBind(ShiftNames(k, b.names), ShiftRemainder(k, b.remainder), ShiftSource(k, b.source))
  }

  function ShiftLinears(k: nat, bs: seq<LinearBind>): (r: seq<LinearBind>)
    ensures |r| == |bs| && forall i :: 0 <= i < |bs| ==> r[i] == ShiftLinear(k, bs[i])
    decreases bs
  {
    seq(|bs|, i requires 0 <= i < |bs| => ShiftLinear(k, bs[i]))
  }

  function ShiftBind(k: nat, b: NameBind): NameBind
    decreases b
  {
    NameBind(ShiftNames(k, b.names), ShiftRemainder(k, b.remainder), ShiftName(k, b.source))
  }

  function ShiftBinds(k: nat, bs: seq<NameBind>): (r: seq<NameBind>)
    ensures |r| == |bs| && forall i :: 0 <= i < |bs| ==> r[i] == ShiftBind(k, bs[i])
    decreases bs
  {
    seq(|bs|, i requires 0 <= i < |bs| => ShiftBind(k, bs[i]))
  }

  function ShiftReceipt(k: nat, r: Receipt): Receipt
    decreases r
  {
    match r
    case ReceiptLinear(bs) => ReceiptLinear(ShiftLinears(k, bs))
    case ReceiptRepeated(bs) => ReceiptRepeated(ShiftBinds(k, bs))
    case ReceiptPeek(bs) => ReceiptPeek(ShiftBinds(k, bs))
  }

  function ShiftReceipts(k: nat, rs: seq<Receipt>): (r: seq<Receipt>)
    ensures |r| == |rs| && forall i :: 0 <= i < |rs| ==> r[i] == ShiftReceipt(k, rs[i])
    decreases rs
  {
    seq(|rs|, i requires 0 <= i < |rs| => ShiftReceipt(k, rs[i]))
  }

  function ShiftBranch(k: nat, b: Branch): Branch
    decreases b
  {
    Branch(ShiftLinears(k, b.binds), ShiftProc(k, b.body))
  }

  function ShiftBranches(k: nat, bs: seq<Branch>): (r: seq<Branch>)
    ensures |r| == |bs| && forall i :: 0 <= i < |bs| ==> r[i] == ShiftBranch(k, bs[i])
    decreases bs
  {
    seq(|bs|, i requires 0 <= i < |bs| => ShiftBranch(k, bs[i]))
  }

  function ShiftDecl(k: nat, d: Decl): Decl
    decreases d
  {
    Decl(ShiftNames(k, d.names), ShiftRemainder(k, d.remainder), ShiftProcs(k, d.procs))
  }

  function ShiftDeclSeq(k: nat, ds: seq<Decl>): (r: seq<Decl>)
    ensures |r| == |ds| && forall i :: 0 <= i < |ds| ==> r[i] == ShiftDecl(k, ds[i])
    decreases ds
  {
    seq(|ds|, i requires 0 <= i < |ds| => ShiftDecl(k, ds[i]))
  }

  function ShiftDecls(k: nat, ds: Decls): Decls
    decreases ds
  {
    match ds
    case EmptyDecls => ds
    case LinearDecls(more) => LinearDecls(ShiftDeclSeq(k, more))
    case ConcDecls(more) => ConcDecls(ShiftDeclSeq(k, more))
  }

  // ----- contexts

  /** Undo the shift of an identifier that `ShiftId` can produce. */
  function Origin(k: nat, y: Ident): Ident {
    if y.Fresh? && y.n >= k then Fresh(y.n - k) else y
  }

  predicate IsShifted(k: nat, y: Ident) {
    y.Fresh? ==> y.n >= k
  }

  function ShiftKeys<V>(k: nat, m: map<Ident, V>): (r: map<Ident, V>)
    ensures forall y :: y in r <==> IsShifted(k, y) && Origin(k, y) in m
    ensures forall y :: y in r ==> r[y] == m[Origin(k, y)]
  {
    map x | x in m :: ShiftId(k, x) := m[x]
  }

  function ShiftBound(k: nat, bm: BoundMap): BoundMap {
    bm.(bindings := ShiftKeys(k, bm.bindings))
  }

  function ShiftFree(k: nat, fm: FreeMap): FreeMap {
    fm.(bindings := ShiftKeys(k, fm.bindings))
  }

  function ShiftChain(k: nat, c: seq<BoundMap>): (r: seq<BoundMap>)
    ensures |r| == |c| && forall i :: 0 <= i < |c| ==> r[i] == ShiftBound(k, c[i])
  {
    seq(|c|, i requires 0 <= i < |c| => ShiftBound(k, c[i]))
  }

  lemma ShiftUpdate<V>(k: nat, m: map<Ident, V>, x: Ident, v: V)
    ensures ShiftKeys(k, m[x := v]) == ShiftKeys(k, m)[ShiftId(k, x) := v]
  {
    hide ShiftKeys;
    assert forall y :: IsShifted(k, y) && Origin(k, y) == x <==> y == ShiftId(k, x);
  }

  lemma ShiftUnion<V>(k: nat, m: map<Ident, V>, n: map<Ident, V>)
    ensures ShiftKeys(k, m + n) == ShiftKeys(k, m) + ShiftKeys(k, n)
  {
    hide ShiftKeys;
  }

  lemma ShiftLevels(k: nat, m: map<Ident, FreeContext>, by': int)
    ensures ShiftKeys(k, map x | x in m :: FreeContext(m[x].level + by', m[x].typ))
         == map y | y in ShiftKeys(k, m) :: FreeContext(ShiftKeys(k, m)[y].level + by', ShiftKeys(k, m)[y].typ)
    ensures ShiftKeys(k, map x | x in m :: BoundContext(m[x].level + by', m[x].typ))
         == map y | y in ShiftKeys(k, m) :: BoundContext(ShiftKeys(k, m)[y].level + by', ShiftKeys(k, m)[y].typ)
  {
    hide ShiftKeys;
  }

  lemma FreePutShift(k: nat, fm: FreeMap, x: Ident, typ: VarSort)
    ensures ShiftFree(k, fm).Put(ShiftId(k, x), typ) == ShiftFree(k, fm.Put(x, typ))
  {
    hide ShiftKeys;
    ShiftUpdate(k, fm.bindings, x, FreeContext(fm.nextLevel, typ));
  }

  lemma FreeMergeShift(k: nat, fm: FreeMap, other: FreeMap)
    ensures ShiftFree(k, fm).Merge(ShiftFree(k, other)) == ShiftFree(k, fm.Merge(other))
    ensures ShiftFree(k, fm).Shadows(ShiftFree(k, other)) == fm.Shadows(other)
  {
    hide ShiftKeys;
    ShiftLevels(k, other.bindings, fm.nextLevel);
    ShiftUnion(k, fm.bindings, map x | x in other.bindings ::
      FreeContext(other.bindings[x].level + fm.nextLevel, other.bindings[x].typ));
    if fm.Shadows(other) {
      var x :| x in fm.bindings && x in other.bindings;
      assert ShiftId(k, x) in ShiftKeys(k, fm.bindings) && ShiftId(k, x) in ShiftKeys(k, other.bindings);
    }
    if ShiftFree(k, fm).Shadows(ShiftFree(k, other)) {
      var y :| y in ShiftKeys(k, fm.bindings) && y in ShiftKeys(k, other.bindings);
      assert Origin(k, y) in fm.bindings && Origin(k, y) in other.bindings;
    }
  }

  lemma AbsorbShift(k: nat, bm: BoundMap, fm: FreeMap)
    ensures ShiftBound(k, bm).AbsorbFree(ShiftFree(k, fm)) == ShiftBound(k, bm.AbsorbFree(fm))
  {
    hide ShiftKeys;
    ShiftLevels(k, fm.bindings, bm.nextIndex);
    ShiftUnion(k, bm.bindings, map x | x in fm.bindings ::
      BoundContext(fm.bindings[x].level + bm.nextIndex, fm.bindings[x].typ));
  }

  function ShiftIds(k: nat, xs: seq<Ident>): (r: seq<Ident>)
    ensures |r| == |xs| && forall i :: 0 <= i < |xs| ==> r[i] == ShiftId(k, xs[i])
  {
    seq(|xs|, i requires 0 <= i < |xs| => ShiftId(k, xs[i]))
  }

  lemma {:induction false} PutAllShift(k: nat, bm: BoundMap, xs: seq<Ident>, typ: VarSort)
    ensures ShiftBound(k, bm).PutAll(ShiftIds(k, xs), typ) == ShiftBound(k, bm.PutAll(xs, typ))
    decreases |xs|
  {
    hide ShiftKeys;
    if xs != [] {
      ShiftUpdate(k, bm.bindings, xs[0], BoundContext(bm.nextIndex, typ));
      assert ShiftIds(k, xs)[1..] == ShiftIds(k, xs[1..]);
      PutAllShift(k, bm.Put(xs[0], typ), xs[1..], typ);
    }
  }

  lemma {:induction false} ChainFindShift(k: nat, c: seq<BoundMap>, x: Ident)
    ensures ChainFind(ShiftChain(k, c), ShiftId(k, x)) == ChainFind(c, x)
  {
    hide ShiftKeys;
    if c != [] {
      assert ShiftChain(k, c)[1..] == ShiftChain(k, c[1..]);
      ChainFindShift(k, c[1..], x);
    }
  }

  // ----- sorting looks at scores only

  ghost predicate Mapped<A(!new), B>(f: A -> B, xs: seq<Scored<A>>, ys: seq<Scored<B>>) {
    |ys| == |xs| && forall i :: 0 <= i < |xs| ==> ys[i] == Scored(f(xs[i].term), xs[i].score)
  }

  lemma {:induction false} InsertMapped<A(!new), B>(f: A -> B, x: Scored<A>, xs: seq<Scored<A>>, ys: seq<Scored<B>>)
    requires Mapped(f, xs, ys)
    ensures Mapped(f, Insert(x, xs), Insert(Scored(f(x.term), x.score), ys))
    decreases |xs|
  {
    if xs != [] && !AtMost(x.score, xs[0].score) {
      InsertMapped(f, x, xs[1..], ys[1..]);
    }
  }

  lemma {:induction false} SortMapped<A(!new), B>(f: A -> B, xs: seq<Scored<A>>, ys: seq<Scored<B>>)
    requires Mapped(f, xs, ys)
    ensures Mapped(f, Sort(xs), Sort(ys))
    decreases |xs|
  {
    if xs != [] {
      SortMapped(f, xs[1..], ys[1..]);
      InsertMapped(f, xs[0], Sort(xs[1..]), Sort(ys[1..]));
    }
  }

  // ----- the desugarings

  lemma {:induction false} ChoiceShift(k: nat, bs: seq<Branch>)
    ensures DesugarChoice(ShiftBranches(k, bs)) == ShiftProc(k, DesugarChoice(bs))
    decreases |bs|
  {
    if bs != [] {
      ReceiveOfShift(k, bs[0]);
      if |bs| > 1 {
        assert ShiftBranches(k, bs)[1..] == ShiftBranches(k, bs[1..]);
        ChoiceShift(k, bs[1..]);
      }
    }
  }

  lemma ReceiveOfShift(k: nat, b: Branch)
    ensures ReceiveOf(ShiftBranch(k, b)) == ShiftProc(k, ReceiveOf(b))
  {
    OneReceiptShift(k, ReceiptLinear(b.binds));
  }

  lemma OneReceiptShift(k: nat, r: Receipt)
    ensures ShiftReceipts(k, [r]) == [ShiftReceipt(k, r)]
  {
  }

  lemma PrependProcsShift(k: nat, p: Proc, ps: seq<Proc>)
    ensures ShiftProcs(k, [p] + ps) == [ShiftProc(k, p)] + ShiftProcs(k, ps)
  {
    hide ShiftProc;
  }

  lemma ReplySendShift(k: nat, n: Name, x: Ident, ps: seq<Proc>)
    ensures ShiftProc(k, PSend(n, false, [PEval(NameVar(x))] + ps))
         == PSend(ShiftName(k, n), false, [PEval(NameVar(ShiftId(k, x)))] + ShiftProcs(k, ps))
  {
    PrependProcsShift(k, PEval(NameVar(x)), ps);
  }

  lemma SendSynchShift(k: nat, n: Name, data: seq<Proc>, cont: SynchSendCont, x: Ident)
    ensures DesugarSendSynch(ShiftName(k, n), ShiftProcs(k, data), ShiftCont(k, cont), ShiftId(k, x))
         == ShiftProc(k, DesugarSendSynch(n, data, cont, x))
  {
    hide AwaitAck, ShiftProcs, ShiftName, ShiftCont;
    ReplySendShift(k, n, x, data);
    AwaitAckShift(k, cont, x);
    var send := PSend(n, false, [PEval(NameVar(x))] + data);
    assert ShiftProc(k, PPar(send, AwaitAck(cont, x))) == PPar(ShiftProc(k, send), ShiftProc(k, AwaitAck(cont, x)));
    assert ShiftNameDecls(k, [NameDeclSimpl(x)]) == [NameDeclSimpl(ShiftId(k, x))];
  }

  lemma AwaitAckShift(k: nat, cont: SynchSendCont, x: Ident)
    ensures AwaitAck(ShiftCont(k, cont), ShiftId(k, x)) == ShiftProc(k, AwaitAck(cont, x))
  {
    var bind := LinearBind([NameWildcard], RemainderEmpty, SimpleSource(NameVar(x)));
    assert ShiftNames(k, [NameWildcard]) == [NameWildcard];
    assert ShiftSource(k, bind.source) == SimpleSource(NameVar(ShiftId(k, x)));
    assert ShiftLinear(k, bind) == LinearBind([NameWildcard], RemainderEmpty, ShiftSource(k, bind.source));
    assert ShiftLinears(k, [bind]) == [ShiftLinear(k, bind)];
    OneReceiptShift(k, ReceiptLinear([bind]));
    assert ContinuationOf(ShiftCont(k, cont)) == ShiftProc(k, ContinuationOf(cont));
  }

  lemma {:induction false} NestShift(k: nat, rs: seq<Receipt>, body: Proc)
    ensures NestReceipts(ShiftReceipts(k, rs), ShiftProc(k, body)) == ShiftProc(k, NestReceipts(rs, body))
    decreases |rs|
  {
    hide ShiftReceipt;
    if rs != [] {
      assert ShiftReceipts(k, rs)[1..] == ShiftReceipts(k, rs[1..]);
      NestShift(k, rs[1..], body);
      OneReceiptShift(k, rs[0]);
    }
  }

  function ShiftComplex(k: nat, c: Complex): Complex {
    Complex(ShiftProcs(k, c.sends), ShiftLinears(k, c.binds), ShiftNameDecls(k, c.decls),
            ShiftProc(k, c.continuation), c.supply + k)
  }

  lemma SignalShift(k: nat, x: Ident, ps: seq<Proc>)
    ensures ShiftProc(k, PSend(NameVar(x), false, ps)) == PSend(NameVar(ShiftId(k, x)), false, ShiftProcs(k, ps))
    ensures ShiftProcs(k, []) == []
  {
  }

  lemma ComplexStepShift(k: nat, b: LinearBind, c: Complex)
    ensures ComplexStep(ShiftLinear(k, b), ShiftComplex(k, c)) == ShiftComplex(k, ComplexStep(b, c))
  {
    var x := Fresh(c.supply);
    match b.source
    case SimpleSource(_) =>
      assert ShiftLinears(k, c.binds + [b]) == ShiftLinears(k, c.binds) + [ShiftLinear(k, b)];
    case ReceiveSendSource(n) =>
      var bind := LinearBind([NameVar(x)] + b.names, b.remainder, SimpleSource(n));
      SignalShift(k, x, []);
      var signal := PSend(NameVar(x), false, []);
      assert ShiftProc(k, PPar(signal, c.continuation)) == PPar(ShiftProc(k, signal), ShiftProc(k, c.continuation));
      assert ShiftNames(k, [NameVar(x)] + b.names) == [NameVar(ShiftId(k, x))] + ShiftNames(k, b.names);
      assert ShiftSource(k, b.source) == ReceiveSendSource(ShiftName(k, n));
      assert ShiftSource(k, bind.source) == SimpleSource(ShiftName(k, n));
      assert ShiftLinears(k, c.binds + [bind]) == ShiftLinears(k, c.binds) + [ShiftLinear(k, bind)];
    case SendReceiveSource(n, ps) =>
      var bind := LinearBind(b.names, b.remainder, SimpleSource(NameVar(x)));
      var send := PSend(n, false, [PEval(NameVar(x))] + ps);
      ReplySendShift(k, n, x, ps);
      assert ShiftSource(k, b.source) == SendReceiveSource(ShiftName(k, n), ShiftProcs(k, ps));
      assert ShiftSource(k, bind.source) == SimpleSource(NameVar(ShiftId(k, x)));
      assert ShiftLinears(k, c.binds + [bind]) == ShiftLinears(k, c.binds) + [ShiftLinear(k, bind)];
      assert ShiftNameDecls(k, c.decls + [NameDeclSimpl(x)])
          == ShiftNameDecls(k, c.decls) + [NameDeclSimpl(ShiftId(k, x))];
      assert ShiftProcs(k, c.sends + [send]) == ShiftProcs(k, c.sends) + [ShiftProc(k, send)];
  }

  lemma {:induction false} ComplexFoldShift(k: nat, bs: seq<LinearBind>, c: Complex)
    ensures ComplexFold(ShiftLinears(k, bs), ShiftComplex(k, c)) == ShiftComplex(k, ComplexFold(bs, c))
    decreases |bs|
  {
    hide ShiftLinear, ShiftComplex, ComplexStep;
    if bs != [] {
      assert ShiftLinears(k, bs)[1..] == ShiftLinears(k, bs[1..]);
      ComplexStepShift(k, bs[0], c);
      ComplexFoldShift(k, bs[1..], ComplexStep(bs[0], c));
    }
  }

  lemma {:induction false} SendsThenShift(k: nat, sends: seq<Proc>, last: Proc)
    ensures SendsThen(ShiftProcs(k, sends), ShiftProc(k, last)) == ShiftProc(k, SendsThen(sends, last))
    decreases |sends|
  {
    if sends != [] {
      assert ShiftProcs(k, sends)[1..] == ShiftProcs(k, sends[1..]);
      SendsThenShift(k, sends[1..], last);
    }
  }

  lemma AssembleShift(k: nat, c: Complex)
    ensures Assemble(ShiftComplex(k, c)) == ShiftProc(k, Assemble(c))
  {
    var last := PInput([ReceiptLinear(c.binds)], c.continuation);
    OneReceiptShift(k, ReceiptLinear(c.binds));
    SendsThenShift(k, c.sends, last);
    hide SendsThen;
    assert (ShiftNameDecls(k, c.decls) == []) == (c.decls == []);
  }

  lemma DesugarComplexShift(k: nat, bs: seq<LinearBind>, body: Proc, supply: nat)
    ensures DesugarComplex(ShiftLinears(k, bs), ShiftProc(k, body), supply + k)
         == ShiftComplex(k, DesugarComplex(bs, body, supply))
  {
    var c := Complex([], [], [], body, supply);
    assert ShiftComplex(k, c) == Complex([], [], [], ShiftProc(k, body), supply + k);
    ComplexFoldShift(k, bs, c);
  }

  lemma IsComplexShift(k: nat, bs: seq<LinearBind>)
    ensures IsComplex(ShiftLinears(k, bs)) == IsComplex(bs)
  {
    forall i | 0 <= i < |bs|
      ensures ShiftLinears(k, bs)[i].source.SimpleSource? == bs[i].source.SimpleSource?
    {
      assert ShiftLinear(k, bs[i]).source == ShiftSource(k, bs[i].source);
    }
  }

  lemma {:induction false} SimpleBindsShift(k: nat, bs: seq<LinearBind>)
    ensures SimpleBinds(ShiftLinears(k, bs)) == ShiftBinds(k, SimpleBinds(bs))
    decreases |bs|
  {
    hide ShiftName, ShiftNames;
    if bs != [] {
      assert ShiftLinears(k, bs)[1..] == ShiftLinears(k, bs[1..]);
      SimpleBindsShift(k, bs[1..]);
      assert ShiftSource(k, bs[0].source).n == ShiftName(k, bs[0].source.n);
    }
  }

  lemma LetContinuationShift(k: nat, ds: seq<Decl>, body: Proc)
    ensures LetContinuation(ShiftDeclSeq(k, ds), ShiftProc(k, body)) == ShiftProc(k, LetContinuation(ds, body))
  {
    hide ShiftDecl;
    if |ds| > 1 {
      assert ShiftDeclSeq(k, ds)[1..] == ShiftDeclSeq(k, ds[1..]);
    }
  }

  lemma {:induction false} ConcSendsShift(k: nat, ds: seq<Decl>, supply: nat)
    ensures ConcSends(ShiftDeclSeq(k, ds), supply + k) == ShiftProcs(k, ConcSends(ds, supply))
    decreases |ds|
  {
    if ds != [] {
      assert ShiftDeclSeq(k, ds)[1..] == ShiftDeclSeq(k, ds[1..]);
      ConcSendsShift(k, ds[1..], supply + 1);
      SignalShift(k, Fresh(supply), ds[0].procs);
      PrependProcsShift(k, PSend(NameVar(Fresh(supply)), false, ds[0].procs), ConcSends(ds[1..], supply + 1));
      assert ShiftDecl(k, ds[0]).procs == ShiftProcs(k, ds[0].procs);
    }
  }

  lemma {:induction false} ConcBindsShift(k: nat, ds: seq<Decl>, supply: nat)
    ensures ConcBinds(ShiftDeclSeq(k, ds), supply + k) == ShiftLinears(k, ConcBinds(ds, supply))
    ensures ConcNames(ShiftDeclSeq(k, ds), supply + k) == ShiftNameDecls(k, ConcNames(ds, supply))
    decreases |ds|
  {
    hide ShiftProcs;
    if ds != [] {
      assert ShiftDeclSeq(k, ds)[1..] == ShiftDeclSeq(k, ds[1..]);
      ConcBindsShift(k, ds[1..], supply + 1);
      var bind := LinearBind(ds[0].names, ds[0].remainder, SimpleSource(NameVar(Fresh(supply))));
      assert ShiftSource(k, bind.source) == SimpleSource(NameVar(Fresh(supply + k)));
      assert ShiftLinear(k, bind)
          == LinearBind(ShiftDecl(k, ds[0]).names, ShiftDecl(k, ds[0]).remainder, ShiftSource(k, bind.source));
    }
  }

  lemma ConcLetShift(k: nat, ds: seq<Decl>, body: Proc, supply: nat)
    ensures DesugarConcLet(ShiftDeclSeq(k, ds), ShiftProc(k, body), supply + k)
         == ShiftProc(k, DesugarConcLet(ds, body, supply))
  {
    hide ConcSends, ConcBinds, ConcNames, SendsThen;
    ConcSendsShift(k, ds, supply);
    ConcBindsShift(k, ds, supply);
    var last := PInput([ReceiptLinear(ConcBinds(ds, supply))], body);
    OneReceiptShift(k, ReceiptLinear(ConcBinds(ds, supply)));
    SendsThenShift(k, ConcSends(ds, supply), last);
  }
}
