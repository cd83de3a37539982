/** What the desugarings stand for, stated bind by bind and branch by branch instead of by the loops that build them. */
module Desugared {
  import opened Orders
  import opened Ast
  import opened ParOps
  import opened ProcAst
  import opened Contexts
  import opened Desugar
  import opened Normalizer

  /** The processes that run side by side. */
  function Parallel(p: Proc): seq<Proc> {
    match p
    case PPar(l, r) => Parallel(l) + Parallel(r)
    case PNil => []
    case _ => [p]
  }

  // ----- select

  /** A choice is one receive per branch, side by side and in order. */
  lemma {:induction false} ChoiceBranches(bs: seq<Branch>)
    ensures var ps := Parallel(DesugarChoice(bs));
            |ps| == |bs| && forall i :: 0 <= i < |bs| ==> ps[i] == PInput([ReceiptLinear(bs[i].binds)], bs[i].body)
  {
    if |bs| > 1 { ChoiceBranches(bs[1..]); }
  }

  // ----- synchronous send

  /** The name that goes out with the data is declared for the purpose, and the continuation waits on it. */
  lemma SynchronousSend(n: Name, data: seq<Proc>, cont: SynchSendCont, x: Ident)
    ensures var p := DesugarSendSynch(n, data, cont, x);
            && p.PNew? && p.names == [NameDeclSimpl(x)]
            && Parallel(p.body) == [Request(n, data, x), Await(cont, x)]
  {
  }

  /** `n!(*x, data...)`. */
  function Request(n: Name, data: seq<Proc>, x: Ident): (r: Proc)
    ensures r.PSend? && r.n == n && !r.multiple && |r.data| == 1 + |data|
    ensures r.data[0] == PEval(NameVar(x)) && r.data[1..] == data
  {
    PSend(n, false, [PEval(NameVar(x))] + data)
  }

  /** `for (_ <- x) { cont }`. */
  function Await(cont: SynchSendCont, x: Ident): Proc {
    var body := match cont
                case EmptyCont => PNil
                case NonEmptyCont(p) => p;
    PInput([ReceiptLinear([LinearBind([NameWildcard], RemainderEmpty, SimpleSource(NameVar(x)))])], body)
  }

  // ----- several receipts

  /** Receipts nest from the left: the first is outermost. */
  lemma {:induction false} NestingComposes(a: seq<Receipt>, b: seq<Receipt>, body: Proc)
    ensures NestReceipts(a + b, body) == NestReceipts(a, NestReceipts(b, body))
    ensures forall r :: NestReceipts([r], body) == PInput([r], body)
  {
    if a == [] {
      assert a + b == b;
    } else {
      NestingComposes(a[1..], b, body);
      assert (a + b)[1..] == a[1..] + b;
    }
    forall r ensures NestReceipts([r], body) == PInput([r], body) { assert [r][1..] == []; }
  }

  // ----- complex sources

  /** How many fresh names the binds take. */
  function Helpers(bs: seq<LinearBind>): nat {
    if bs == [] then 0 else (if bs[0].source.SimpleSource? then 0 else 1) + Helpers(bs[1..])
  }

  /** The fresh name of the bind at `i`, if it takes one. */
  function HelperOf(bs: seq<LinearBind>, supply: nat, i: nat): Ident
    requires i < |bs|
  {
    Fresh(supply + Helpers(bs[..i]))
  }

  /** The bind that replaces one with a complex source: `?!` receives a name to acknowledge on, `!?` receives on its own. */
  function PlainBind(b: LinearBind, x: Ident): LinearBind {
    match b.source
    case SimpleSource(_) => b
    case ReceiveSendSource(n) => LinearBind([NameVar(x)] + b.names, b.remainder, SimpleSource(n))
    case SendReceiveSource(_, _) => LinearBind(b.names, b.remainder, SimpleSource(NameVar(x)))
  }

  /** The requests of the binds, in their order. */
  function Requests(bs: seq<LinearBind>, supply: nat): seq<Proc>
    decreases |bs|
  {
    if bs == [] then []
    else
      match bs[0].source
      case SimpleSource(_) => Requests(bs[1..], supply)
      case ReceiveSendSource(_) => Requests(bs[1..], supply + 1)
      case SendReceiveSource(n, ps) => [Request(n, ps, Fresh(supply))] + Requests(bs[1..], supply + 1)
  }

  function Declarations(bs: seq<LinearBind>, supply: nat): seq<NameDecl>
    decreases |bs|
  {
    if bs == [] then []
    else
      match bs[0].source
      case SimpleSource(_) => Declarations(bs[1..], supply)
      case ReceiveSendSource(_) => Declarations(bs[1..], supply + 1)
      case SendReceiveSource(_, _) => [NameDeclSimpl(Fresh(supply))] + Declarations(bs[1..], supply + 1)
  }

  /** The acknowledgements, last bind first. */
  function Acknowledgements(bs: seq<LinearBind>, supply: nat): seq<Proc>
    decreases |bs|
  {
    if bs == [] then []
    else
      match bs[0].source
      case SimpleSource(_) => Acknowledgements(bs[1..], supply)
      case ReceiveSendSource(_) => Acknowledgements(bs[1..], supply + 1) + [PSend(NameVar(Fresh(supply)), false, [])]
      case SendReceiveSource(_, _) => Acknowledgements(bs[1..], supply + 1)
  }

  lemma {:induction false} FoldMeans(bs: seq<LinearBind>, acc: Complex)
    ensures var c := ComplexFold(bs, acc);
            && c.sends == acc.sends + Requests(bs, acc.supply)
            && c.decls == acc.decls + Declarations(bs, acc.supply)
            && c.continuation == SendsThen(Acknowledgements(bs, acc.supply), acc.continuation)
            && c.supply == acc.supply + Helpers(bs)
            && |c.binds| == |acc.binds| + |bs| && c.binds[..|acc.binds|] == acc.binds
    decreases |bs|
  {
    if bs != [] {
      var next := ComplexStep(bs[0], acc);
      FoldMeans(bs[1..], next);
      if bs[0].source.ReceiveSendSource? {
        SendsThenAppend(Acknowledgements(bs[1..], acc.supply + 1), PSend(NameVar(Fresh(acc.supply)), false, []), acc.continuation);
      }
      assert ComplexFold(bs, acc).binds[..|acc.binds|] == ComplexFold(bs, acc).binds[..|next.binds|][..|acc.binds|];
    }
  }

  lemma {:induction false} SendsThenAppend(sends: seq<Proc>, s: Proc, last: Proc)
    ensures SendsThen(sends + [s], last) == SendsThen(sends, PPar(s, last))
  {
    if sends == [] {
      assert [s][1..] == [];
    } else {
      SendsThenAppend(sends[1..], s, last);
      assert (sends + [s])[1..] == sends[1..] + [s];
    }
  }

  lemma {:induction false} BindsMean(bs: seq<LinearBind>, acc: Complex, i: nat)
    requires i < |bs|
    ensures |ComplexFold(bs, acc).binds| == |acc.binds| + |bs|
    ensures ComplexFold(bs, acc).binds[|acc.binds| + i] == PlainBind(bs[i], HelperOf(bs, acc.supply, i))
    decreases |bs|
  {
    var next := ComplexStep(bs[0], acc);
    FoldMeans(bs, acc);
    FoldMeans(bs[1..], next);
    if i == 0 {
      assert bs[..0] == [];
      assert ComplexFold(bs, acc).binds[|acc.binds|] == next.binds[|acc.binds|];
    } else {
      BindsMean(bs[1..], next, i - 1);
      assert bs[..i][0] == bs[0] && bs[..i][1..] == bs[1..][..i - 1];
    }
  }

  /** A join from complex sources: the requests go out beside a join from plain sources, whose body first acknowledges. */
  lemma ComplexJoin(bs: seq<LinearBind>, body: Proc, supply: nat)
    ensures var c := DesugarComplex(bs, body, supply);
            && c.sends == Requests(bs, supply) && c.decls == Declarations(bs, supply)
            && c.continuation == SendsThen(Acknowledgements(bs, supply), body)
            && c.supply == supply + Helpers(bs)
            && |c.binds| == |bs| && forall i :: 0 <= i < |bs| ==> c.binds[i] == PlainBind(bs[i], HelperOf(bs, supply, i))
  {
    var start := Complex([], [], [], body, supply);
    FoldMeans(bs, start);
    forall i | 0 <= i < |bs| ensures ComplexFold(bs, start).binds[i] == PlainBind(bs[i], HelperOf(bs, supply, i)) {
      BindsMean(bs, start, i);
    }
  }

  lemma {:induction false} SendsSideBySide(sends: seq<Proc>, last: Proc)
    requires forall i :: 0 <= i < |sends| ==> sends[i].PSend?
    ensures Parallel(SendsThen(sends, last)) == sends + Parallel(last)
  {
    if sends == [] {
      assert sends + Parallel(last) == Parallel(last);
    } else {
      SendsSideBySide(sends[1..], last);
      assert sends == [sends[0]] + sends[1..];
    }
  }

  // ----- let

  lemma {:induction false} NamesApart(ds: seq<Decl>, supply: nat)
    ensures |ConcNames(ds, supply)| == |ds|
    ensures forall i :: 0 <= i < |ds| ==> ConcNames(ds, supply)[i] == NameDeclSimpl(Fresh(supply + i))
    decreases |ds|
  {
    if ds != [] { NamesApart(ds[1..], supply + 1); }
  }

  lemma {:induction false} SendsApart(ds: seq<Decl>, supply: nat)
    ensures |ConcSends(ds, supply)| == |ds|
    ensures forall i :: 0 <= i < |ds| ==> ConcSends(ds, supply)[i] == PSend(NameVar(Fresh(supply + i)), false, ds[i].procs)
    decreases |ds|
  {
    if ds != [] { SendsApart(ds[1..], supply + 1); }
  }

  lemma {:induction false} BindsApart(ds: seq<Decl>, supply: nat)
    ensures |ConcBinds(ds, supply)| == |ds|
    ensures forall i :: 0 <= i < |ds| ==>
              ConcBinds(ds, supply)[i] == LinearBind(ds[i].names, ds[i].remainder, SimpleSource(NameVar(Fresh(supply + i))))
    decreases |ds|
  {
    if ds != [] { BindsApart(ds[1..], supply + 1); }
  }

  /** In a concurrent `let` every declaration has a name of its own: its values go out on it and its patterns receive on it. */
  lemma ConcurrentParts(ds: seq<Decl>, supply: nat, i: nat)
    requires i < |ds|
    ensures |ConcSends(ds, supply)| == |ConcBinds(ds, supply)| == |ConcNames(ds, supply)| == |ds|
    ensures ConcNames(ds, supply)[i] == NameDeclSimpl(Fresh(supply + i))
    ensures ConcSends(ds, supply)[i] == PSend(NameVar(Fresh(supply + i)), false, ds[i].procs)
    ensures ConcBinds(ds, supply)[i] == LinearBind(ds[i].names, ds[i].remainder, SimpleSource(NameVar(Fresh(supply + i))))
  {
    hide ConcSends, ConcBinds, ConcNames;
    NamesApart(ds, supply);
    SendsApart(ds, supply);
    BindsApart(ds, supply);
  }

  /** The sends of a concurrent `let` run beside one joint receive, under the names. */
  lemma ConcurrentLet(ds: seq<Decl>, body: Proc, supply: nat)
    ensures var p := DesugarConcLet(ds, body, supply);
            && p.PNew? && p.names == ConcNames(ds, supply)
            && Parallel(p.body) == ConcSends(ds, supply) + [PInput([ReceiptLinear(ConcBinds(ds, supply))], body)]
  {
    SendsApart(ds, supply);
    SendsSideBySide(ConcSends(ds, supply), PInput([ReceiptLinear(ConcBinds(ds, supply))], body));
  }

  /** One `let` inside another, a declaration each. */
  function Nested(ds: seq<Decl>, body: Proc): Proc {
    if ds == [] then body else PLet(ds[0], EmptyDecls, Nested(ds[1..], body))
  }

  /** A sequential `let` compiles to what nested `let`s compile to, in every context. */
  lemma {:induction false} SequentialLet(d: Decl, ds: seq<Decl>, body: Proc, acc: Par, cx: Context, st: State)
    ensures NormProc(PLet(d, LinearDecls(ds), body), acc, cx, st) == NormProc(Nested([d] + ds, body), acc, cx, st)
    decreases |ds|
  {
    hide NormProc, NormLetMatch;
    assert ([d] + ds)[1..] == ds;
    LetUnfolds(d, LinearDecls(ds), body, acc, cx, st);
    LetUnfolds(d, EmptyDecls, Nested(ds, body), acc, cx, st);
    forall c, s ensures NormProc(LetContinuation(ds, body), Nil, c, s) == NormProc(Nested(ds, body), Nil, c, s) {
      ContinuationNests(ds, body, c, s);
    }
    LetMatchSame(d, LetContinuation(ds, body), Nested(ds, body), acc, cx, st);
  }

  lemma LetUnfolds(d: Decl, ds: Decls, body: Proc, acc: Par, cx: Context, st: State)
    ensures NormProc(PLet(d, ds, body), acc, cx, st) == NormLet(d, ds, body, acc, cx, st)
  {
    hide NormLet;
    var p := PLet(d, ds, body);
    assert NormProc(p, acc, cx, st) == NormSugar(p, acc, cx, st);
  }

  lemma {:induction false} ContinuationNests(ds: seq<Decl>, body: Proc, cx: Context, st: State)
    ensures NormProc(LetContinuation(ds, body), Nil, cx, st) == NormProc(Nested(ds, body), Nil, cx, st)
    decreases |ds|, 0
  {
    hide NormProc;
    if |ds| == 1 {
      assert ds[1..] == [];
    } else if |ds| > 1 {
      SequentialLet(ds[0], ds[1..], body, Nil, cx, st);
      assert [ds[0]] + ds[1..] == ds;
    }
  }

  /** Only what the continuation compiles to matters. */
  lemma LetMatchSame(d: Decl, p: Proc, q: Proc, acc: Par, cx: Context, st: State)
    requires forall c, s :: NormProc(p, Nil, c, s) == NormProc(q, Nil, c, s)
    ensures NormLetMatch(d, p, acc, cx, st) == NormLetMatch(d, q, acc, cx, st)
  {
    hide NormProc, NormProcs, NormNames, NormRemainder, FinishLet;
    var values, rest := NormProcs(d.procs, cx, st), NormRemainder(d.remainder, EmptyFreeMap);
    if values.Err? || rest.Err? { return; }
    var names := NormNames(d.names, false, cx.Push(), State(rest.value.free, values.value.st.supply));
    if names.Err? { return; }
    FinishLetSame(values.value, rest.value.v, names.value, p, q, acc, cx);
  }

  lemma FinishLetSame(values: Outs, rest: Option<Var>, names: Outs, p: Proc, q: Proc, acc: Par, cx: Context)
    requires forall c, s :: NormProc(p, Nil, c, s) == NormProc(q, Nil, c, s)
    ensures FinishLet(values, rest, names, p, acc, cx) == FinishLet(values, rest, names, q, acc, cx)
  {
    hide NormProc, FromExpr, PrependMatch, AnyConnectiveUsed;
    var c, s := cx.AbsorbFree(names.st.free), State(values.st.free, names.st.supply);
    assert NormProc(p, Nil, c, s) == NormProc(q, Nil, c, s);
  }
}
