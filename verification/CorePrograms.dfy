/** Core programs compile. A program is core when its literals are readable, its variables are bound and used as what
    they were bound as, and its patterns name distinct variables; normalization then always succeeds, in every
    context that binds the names in scope, and leaves no free name behind. */
module CorePrograms {
  import opened Orders
  import opened StableSort
  import opened Ast
  import opened ParOps
  import opened Sorter
  import opened ProcAst
  import opened Contexts
  import opened Desugar
  import opened Normalizer
  import opened Reading
  import opened NormalizerReads

  /** What each name in scope was bound as. */
  type Sorts = map<Ident, VarSort>

  // ----- patterns

  predicate Distinct(xs: seq<Ident>) {
    forall i, k :: 0 <= i < k < |xs| ==> xs[i] != xs[k]
  }

  function VarsOf(ns: seq<Name>): seq<Ident> {
    if ns == [] then [] else (if ns[0].NameVar? then [ns[0].x] else []) + VarsOf(ns[1..])
  }

  function VarOf(r: Remainder): seq<Ident> {
    if r.RemainderVar? && r.v.ProcVarVar? then [r.v.x] else []
  }

  /** Variables and wildcards, each variable once. */
  predicate PlainPatterns(ns: seq<Name>, r: Remainder) {
    (forall i :: 0 <= i < |ns| ==> !ns[i].NameQuote?) && Distinct(VarsOf(ns) + VarOf(r))
  }

  /** Patterns bind names, a remainder binds a process. */
  function Binds(ns: seq<Name>, r: Remainder): Sorts {
    AsNames(VarsOf(ns)) + (map x | x in VarOf(r) :: ProcSort)
  }

  function Declares(names: seq<NameDecl>): (r: Sorts)
    ensures forall x :: x in r ==> r[x] == NameSort && exists d :: d in names && d.x == x
  {
    map d | d in names :: d.x := NameSort
  }

  function AsNames(xs: seq<Ident>): Sorts {
    map x | x in xs :: NameSort
  }

  // ----- core programs

  ghost predicate Readable(g: Ground) {
    match g
    case GroundInt(s) => exists n :: Denotes(s, n) && -0x8000_0000_0000_0000 <= n < 0x8000_0000_0000_0000
    case GroundBigInt(s) => exists n :: Denotes(s, n)
    case _ => true
  }

  ghost predicate CoreName(n: Name, scope: Sorts)
    decreases WName(n), 0
  {
    match n
    case NameWildcard => false
    case NameVar(x) => x in scope && scope[x] == NameSort
    case NameQuote(p) => Core(p, scope)
  }

  ghost predicate Core(p: Proc, scope: Sorts)
    decreases WProc(p), 9
  {
    if IsOperator(p) then CoreOperator(p, scope)
    else if IsForm(p) then CoreForm(p, scope)
    else if IsSugar(p) then CoreSugar(p, scope)
    else
      match p
      case PGround(g) => Readable(g)
      case PNil => true
      case PExprs(q) => Core(q, scope)
      case PVar(v) => v.ProcVarVar? && v.x in scope && scope[v.x] == ProcSort
      case PEval(n) => CoreName(n, scope)
      case PPar(l, r) => Core(l, scope) && Core(r, scope)
      case PSend(n, _, data) => CoreName(n, scope) && CoreProcs(data, scope)
      case PCollect(c) => CoreCollection(c, scope)
      case _ => false
  }

  ghost predicate CoreOperator(p: Proc, scope: Sorts)
    requires IsOperator(p)
    decreases WProc(p), 8
  {
    match p
    case PNot(q) => Core(q, scope)
    case PNeg(q) => Core(q, scope)
    case PBinary(_, l, r) => Core(l, scope) && Core(r, scope)
    case PMethod(target, _, args) => Core(target, scope) && CoreProcs(args, scope)
    case _ => false
  }

  ghost predicate CoreForm(p: Proc, scope: Sorts)
    requires IsForm(p)
    decreases WProc(p), 8
  {
    match p
    case PNew(names, body) => Core(body, scope + Declares(names))
    case PBundle(_, body) => Core(body, scope)
    case PIf(cond, body) => Core(cond, scope) && Core(body, scope)
    case PIfElse(cond, body, otherwise) => Core(cond, scope) && Core(body, scope) && Core(otherwise, scope)
    case PMatch(target, cases) => Core(target, scope) && CoreCases(cases, scope)
    case PContr(n, formals, remainder, body) =>
      CoreName(n, scope) && PlainPatterns(formals, remainder) && Core(body, scope + Binds(formals, remainder))
  }

  /** The forms that stand for others are core when those are, whatever the fresh names. */
  ghost predicate CoreSugar(p: Proc, scope: Sorts)
    requires IsSugar(p)
    decreases WProc(p), 7
  {
    match p
    case PSendSynch(n, data, cont) =>
      forall k: nat :: (SendSynchWeight(n, data, cont, Fresh(k)); Core(DesugarSendSynch(n, data, cont, Fresh(k)), scope))
    case PInput(receipts, body) =>
      if |receipts| > 1 then
        NestWeight(receipts, body);
        Core(NestReceipts(receipts, body), scope)
      else
        && |receipts| == 1
        && (assert receipts == [receipts[0]]; OneReceiptWeight(receipts[0], body); CoreReceipt(receipts[0], body, scope))
    case PLet(d, ds, body) => CoreLet(d, ds, body, scope)
    case PChoice(branches) =>
      ChoiceWeight(branches);
      Core(DesugarChoice(branches), scope)
  }

  ghost predicate CoreReceipt(r: Receipt, body: Proc, scope: Sorts)
    decreases 1 + WReceipt(r) + WProc(body), 5
  {
    match r
    case ReceiptLinear(bs) =>
      if IsComplex(bs) then
        forall k: nat ::
          (ComplexWeight(bs, body, k); OneReceiptWeight(r, body); Core(Assemble(DesugarComplex(bs, body, k)), scope))
      else
        SimpleBindsWeight(bs);
        CoreReceive(SimpleBinds(bs), body, scope)
    case ReceiptRepeated(bs) => CoreReceive(bs, body, scope)
    case ReceiptPeek(bs) => CoreReceive(bs, body, scope)
  }

  /** One bind: its source in scope, its patterns plain, and the body under what they bind. */
  ghost predicate CoreReceive(bs: seq<NameBind>, body: Proc, scope: Sorts)
    decreases 1 + WBinds(bs) + WProc(body), 4
  {
    && |bs| == 1
    && (assert WBinds(bs) == WBind(bs[0]) + WBinds(bs[1..]);
        && CoreName(bs[0].source, scope) && PlainPatterns(bs[0].names, bs[0].remainder)
        && Core(body, scope + Binds(bs[0].names, bs[0].remainder)))
  }

  ghost predicate CoreLet(d: Decl, ds: Decls, body: Proc, scope: Sorts)
    decreases WProc(PLet(d, ds, body)), 0
  {
    match ds
    case EmptyDecls => CoreLetMatch(d, body, scope)
    case LinearDecls(more) =>
      LetContinuationWeight(d, more, body);
      CoreLetMatch(d, LetContinuation(more, body), scope)
    case ConcDecls(more) =>
      forall k: nat :: (ConcLetWeight(d, more, body, k); Core(DesugarConcLet([d] + more, body, k), scope))
  }

  ghost predicate CoreLetMatch(d: Decl, continuation: Proc, scope: Sorts)
    decreases 19 + WDecl(d) + WProc(continuation), 0
  {
    && CoreProcs(d.procs, scope) && PlainPatterns(d.names, d.remainder)
    && Core(continuation, scope + Binds(d.names, d.remainder))
  }

  ghost predicate CoreProcs(ps: seq<Proc>, scope: Sorts)
    decreases WProcs(ps), 0
  {
    if ps == [] then true else Core(ps[0], scope) && CoreProcs(ps[1..], scope)
  }

  /** Patterns are literals, wildcards and variables. */
  ghost predicate CoreCases(cases: seq<Case>, scope: Sorts)
    decreases WCases(cases), 0
  {
    if cases == [] then true
    else
      assert WCases(cases) == WCase(cases[0]) + WCases(cases[1..]);
      && CorePattern(cases[0].pattern) && Core(cases[0].body, scope + PatternBinds(cases[0].pattern))
      && CoreCases(cases[1..], scope)
  }

  ghost predicate CorePattern(q: Proc) {
    q.PVar? || (q.PGround? && Readable(q.g))
  }

  function PatternBinds(q: Proc): Sorts {
    if q.PVar? && q.v.ProcVarVar? then map[q.v.x := ProcSort] else map[]
  }

  ghost predicate CoreCollection(c: Collection, scope: Sorts)
    decreases WCollection(c), 1
  {
    match c
    case CollectList(ps, r) => r.RemainderEmpty? && CoreProcs(ps, scope)
    case CollectTuple(p, ps) =>
      assert ([p] + ps)[1..] == ps;
      CoreProcs([p] + ps, scope)
    case CollectSet(ps, r) => r.RemainderEmpty? && CoreProcs(ps, scope)
    case CollectMap(kvs, r) => r.RemainderEmpty? && CoreKeyValues(kvs, scope)
  }

  ghost predicate CoreKeyValues(kvs: seq<KeyValuePair>, scope: Sorts)
    decreases WKeyValues(kvs), 0
  {
    if kvs == [] then true
    else
      assert WKeyValues(kvs) == WKeyValue(kvs[0]) + WKeyValues(kvs[1..]);
      Core(kvs[0].key, scope) && Core(kvs[0].value, scope) && CoreKeyValues(kvs[1..], scope)
  }

  // ----- contexts

  /** The names in scope are bound as what the scope says. */
  ghost predicate Agrees(cx: Context, scope: Sorts) {
    forall x :: x in scope ==> x in cx.chain[0].bindings && cx.chain[0].bindings[x].typ == scope[x]
  }

  predicate Clean(st: State) {
    st.free.bindings == map[] && st.free.wildcards == 0
  }

  /** Success, with the free map as it was and no new connective. */
  predicate Compiles(r: Result<Out>, acc: Par, st: State) {
    r.Ok? && r.value.st.free == st.free && r.value.par.connectives == acc.connectives
  }

  predicate CompileAll(r: Result<Outs>, st: State) {
    r.Ok? && r.value.st.free == st.free
  }

  lemma {:induction false} PutAgrees(bm: BoundMap, xs: seq<Ident>)
    ensures var r := bm.PutAll(xs, NameSort);
            && (forall x :: x in bm.bindings || x in xs <==> x in r.bindings)
            && (forall x :: x in r.bindings ==> r.bindings[x].typ == if x in xs then NameSort else bm.bindings[x].typ)
    decreases |xs|
  {
    if xs != [] {
      PutAgrees(bm.Put(xs[0], NameSort), xs[1..]);
      assert xs == [xs[0]] + xs[1..];
    }
  }

  lemma SortedDeclare(names: seq<NameDecl>)
    ensures forall x :: x in DeclNames(SortDecls(names)) <==> x in Declares(names)
  {
    hide Sort;
    var sorted, scored := SortDecls(names), ScoreDecls(names);
    var xs := DeclNames(sorted);
    forall x | x in xs ensures x in Declares(names) {
      var i :| 0 <= i < |xs| && xs[i] == x;
      var k := SortOrigin(scored, i);
      assert names[k] in names && names[k].x == x;
    }
    forall x | x in Declares(names) ensures x in xs {
      var d :| d in names && d.x == x;
      var k :| 0 <= k < |names| && names[k] == d;
      var i := SortKeeps(scored, k);
      assert sorted[i] == d && xs[i] == x;
    }
  }

  lemma NewAgrees(cx: Context, scope: Sorts, names: seq<NameDecl>, xs: seq<Ident>)
    requires Agrees(cx, scope) && forall x :: x in xs <==> x in Declares(names)
    ensures Agrees(cx.PutAll(xs), scope + Declares(names))
  {
    hide BoundMap.PutAll, Declares;
    PutAgrees(cx.chain[0], xs);
  }

  lemma AbsorbAgrees(cx: Context, scope: Sorts, fm: FreeMap, sorts: Sorts)
    requires Agrees(cx, scope)
    requires forall x :: x in sorts ==> x in fm.bindings && fm.bindings[x].typ == sorts[x]
    requires forall x :: x in fm.bindings ==> x in sorts
    ensures Agrees(cx.AbsorbFree(fm), scope + sorts)
  {
  }

  // ----- patterns compile

  /** The free map after patterns that bind `sorts`: those names, and no connective. */
  ghost predicate BindsExactly(fm: FreeMap, sorts: Sorts) {
    && (forall x :: x in fm.bindings <==> x in sorts) && (forall x :: x in sorts ==> fm.bindings[x].typ == sorts[x])
    && fm.connectives == []
  }

  function OwnBinds(n: Name): Sorts {
    if n.NameVar? then map[n.x := NameSort] else map[]
  }

  lemma OnePatternCompiles(n: Name, cx: Context, st: State, sorts: Sorts)
    requires cx.chain[0] == EmptyBoundMap && !n.NameQuote? && BindsExactly(st.free, sorts) && (n.NameVar? ==> n.x !in sorts)
    ensures NormName(n, cx, st).Ok? && BindsExactly(NormName(n, cx, st).value.st.free, sorts + OwnBinds(n))
  {
    hide NormProc;
    if n.NameVar? { assert NormName(n, cx, st) == NormNameVar(n.x, cx, st); }
  }

  function OwnVar(n: Name): seq<Ident> {
    if n.NameVar? then [n.x] else []
  }

  lemma FirstVar(ns: seq<Name>, sorts: Sorts)
    requires ns != [] && Distinct(VarsOf(ns)) && forall x :: x in VarsOf(ns) ==> x !in sorts
    ensures Distinct(VarsOf(ns[1..])) && (forall x :: x in VarsOf(ns[1..]) ==> x !in sorts + OwnBinds(ns[0]))
    ensures ns[0].NameVar? ==> ns[0].x !in sorts
    ensures sorts + OwnBinds(ns[0]) + AsNames(VarsOf(ns[1..])) == sorts + AsNames(VarsOf(ns))
  {
    hide Distinct, AsNames, OwnBinds;
    assert VarsOf(ns) == OwnVar(ns[0]) + VarsOf(ns[1..]);
    hide VarsOf;
    FirstApart(ns[0], VarsOf(ns[1..]), sorts);
    NamesJoin(OwnVar(ns[0]), VarsOf(ns[1..]));
    OwnBindsOwnVar(ns[0]);
    Regroup(sorts, OwnBinds(ns[0]), AsNames(VarsOf(ns[1..])));
  }

  lemma FirstApart(n: Name, rest: seq<Ident>, sorts: Sorts)
    requires Distinct(OwnVar(n) + rest) && forall x :: x in OwnVar(n) + rest ==> x !in sorts
    ensures Distinct(rest) && (forall x :: x in rest ==> x !in sorts + OwnBinds(n)) && (n.NameVar? ==> n.x !in sorts)
  {
    SplitDistinct(OwnVar(n), rest);
    hide Distinct;
    forall x | x in rest ensures x !in sorts + OwnBinds(n) { assert x in OwnVar(n) + rest; }
    if n.NameVar? { assert (OwnVar(n) + rest)[0] == n.x; }
  }

  lemma Regroup(a: Sorts, b: Sorts, c: Sorts)
    ensures a + b + c == a + (b + c)
  {
  }

  lemma OwnBindsOwnVar(n: Name)
    ensures OwnBinds(n) == AsNames(OwnVar(n)) && forall x :: x in OwnBinds(n) <==> x in OwnVar(n)
  {
  }

  lemma NamesJoin(a: seq<Ident>, b: seq<Ident>)
    ensures AsNames(a + b) == AsNames(a) + AsNames(b)
  {
  }

  lemma {:induction false} PatternsCompile(ns: seq<Name>, guarded: bool, cx: Context, st: State, sorts: Sorts)
    requires cx.chain[0] == EmptyBoundMap && (forall i :: 0 <= i < |ns| ==> !ns[i].NameQuote?) && Distinct(VarsOf(ns))
    requires BindsExactly(st.free, sorts) && forall x :: x in VarsOf(ns) ==> x !in sorts
    ensures NormNames(ns, guarded, cx, st).Ok?
    ensures BindsExactly(NormNames(ns, guarded, cx, st).value.st.free, sorts + AsNames(VarsOf(ns)))
    decreases |ns|
  {
    hide NormName;
    if ns == [] {
      assert sorts + AsNames(VarsOf(ns)) == sorts;
    } else {
      FirstVar(ns, sorts);
      OnePatternCompiles(ns[0], cx, st, sorts);
      hide VarsOf, Distinct;
      PatternsCompile(ns[1..], guarded, cx, NormName(ns[0], cx, st).value.st, sorts + OwnBinds(ns[0]));
    }
  }

  lemma RemainderCompiles(r: Remainder, fm: FreeMap, sorts: Sorts)
    requires BindsExactly(fm, sorts) && forall x :: x in VarOf(r) ==> x !in sorts
    ensures NormRemainder(r, fm).Ok?
    ensures BindsExactly(NormRemainder(r, fm).value.free, sorts + map x | x in VarOf(r) :: ProcSort)
  {
  }

  lemma SplitDistinct(a: seq<Ident>, b: seq<Ident>)
    requires Distinct(a + b)
    ensures Distinct(a) && Distinct(b) && (forall x :: x in a ==> x !in b)
  {
    var all := a + b;
    assert forall i :: 0 <= i < |a| ==> all[i] == a[i];
    assert forall i :: 0 <= i < |b| ==> all[|a| + i] == b[i];
  }

  /** A receive, contract or `let` normalizes patterns and remainder in one order or the other. */
  lemma PatternsThenRemainder(ns: seq<Name>, r: Remainder, guarded: bool, cx: Context, supply: nat)
    requires PlainPatterns(ns, r)
    ensures var ps := NormNames(ns, guarded, cx.Push(), State(EmptyFreeMap, supply));
            && ps.Ok? && NormRemainder(r, ps.value.st.free).Ok?
            && BindsExactly(NormRemainder(r, ps.value.st.free).value.free, Binds(ns, r))
  {
    hide NormNames, NormRemainder, BindsExactly;
    SplitDistinct(VarsOf(ns), VarOf(r));
    assert BindsExactly(EmptyFreeMap, map[]) by { NothingBound(); }
    PatternsCompile(ns, guarded, cx.Push(), State(EmptyFreeMap, supply), map[]);
    var names := AsNames(VarsOf(ns));
    assert map[] + names == names;
    RemainderCompiles(r, NormNames(ns, guarded, cx.Push(), State(EmptyFreeMap, supply)).value.st.free, names);
  }

  lemma RemainderThenPatterns(ns: seq<Name>, r: Remainder, cx: Context, supply: nat)
    requires PlainPatterns(ns, r)
    ensures var rest := NormRemainder(r, EmptyFreeMap);
            rest.Ok? && var ps := NormNames(ns, false, cx.Push(), State(rest.value.free, supply));
                        ps.Ok? && BindsExactly(ps.value.st.free, Binds(ns, r))
  {
    hide NormNames, NormRemainder, BindsExactly;
    SplitDistinct(VarsOf(ns), VarOf(r));
    assert BindsExactly(EmptyFreeMap, map[]) by { NothingBound(); }
    RemainderCompiles(r, EmptyFreeMap, map[]);
    var last: Sorts := map x | x in VarOf(r) :: ProcSort;
    assert map[] + last == last;
    PatternsCompile(ns, false, cx.Push(), State(NormRemainder(r, EmptyFreeMap).value.free, supply), last);
    assert last + AsNames(VarsOf(ns)) == Binds(ns, r);
  }

  lemma NothingBound()
    ensures BindsExactly(EmptyFreeMap, map[])
  {
  }

  // ----- literals

  lemma {:induction false} LiteralsCompile(g: Ground)
    requires Readable(g)
    ensures NormGround(g).Ok?
  {
    if g.GroundInt? || g.GroundBigInt? {
      var n :| Denotes(g.text, n) && (g.GroundInt? ==> -0x8000_0000_0000_0000 <= n < 0x8000_0000_0000_0000);
      DenotedParses(g.text, n);
    }
  }

  lemma DenotedParses(s: string, n: int)
    requires Denotes(s, n)
    ensures ParseDecimal(s) == Some(n)
  {
    SameDecimal(s);
    SameDecimal(s[1..]);
  }

  // ----- core programs compile

  lemma {:induction false} NameCompiles(n: Name, scope: Sorts, cx: Context, st: State)
    requires CoreName(n, scope) && Agrees(cx, scope) && Clean(st)
    ensures Compiles(NormName(n, cx, st), Nil, st)
    decreases WName(n), 0
  {
    hide Core, NormProc;
    if n.NameQuote? { ProcCompiles(n.p, scope, Nil, cx, st); }
  }

  /** Normalization succeeds on every core program, in every context that binds its names. */
  lemma {:induction false} ProcCompiles(p: Proc, scope: Sorts, acc: Par, cx: Context, st: State)
    requires Core(p, scope) && Agrees(cx, scope) && Clean(st)
    ensures Compiles(NormProc(p, acc, cx, st), acc, st)
    decreases WProc(p), 9
  {
    hide CoreOperator, CoreForm, CoreSugar, NormOperator, NormForm, NormSugar, NormEval, NormPPar, NormSend,
         NormCollect, CoreName, CoreProcs, CoreCollection, NormGround, NormVarRef;
    if IsOperator(p) {
      OperatorCompiles(p, scope, acc, cx, st);
    } else if IsForm(p) {
      FormCompiles(p, scope, acc, cx, st);
    } else if IsSugar(p) {
      SugarCompiles(p, scope, acc, cx, st);
    } else {
      match p
      case PGround(g) => LiteralsCompile(g);
      case PNil =>
      case PExprs(q) => ProcCompiles(q, scope, acc, cx, st);
      case PVar(v) =>
      case PEval(n) => EvalCompiles(n, scope, acc, cx, st);
      case PPar(l, r) => PParCompiles(l, r, scope, acc, cx, st);
      case PSend(n, multiple, data) => SendCompiles(n, multiple, data, scope, acc, cx, st);
      case PCollect(c) => CollectCompiles(c, scope, acc, cx, st);
    }
  }

  lemma {:induction false} EvalCompiles(n: Name, scope: Sorts, acc: Par, cx: Context, st: State)
    requires CoreName(n, scope) && Agrees(cx, scope) && Clean(st)
    ensures Compiles(NormEval(n, acc, cx, st), acc, st)
    decreases WName(n), 1
  {
    hide CoreName, NormName;
    NameCompiles(n, scope, cx, st);
    assert [] + acc.connectives == acc.connectives;
  }

  lemma {:induction false} PParCompiles(l: Proc, r: Proc, scope: Sorts, acc: Par, cx: Context, st: State)
    requires Core(l, scope) && Core(r, scope) && Agrees(cx, scope) && Clean(st)
    ensures Compiles(NormPPar(l, r, acc, cx, st), acc, st)
    decreases 1 + WProc(l) + WProc(r), 0
  {
    hide Core, NormProc, WProc;
    ProcCompiles(l, scope, acc, cx, st);
    var left := NormProc(l, acc, cx, st).value;
    ProcCompiles(r, scope, left.par, cx, left.st);
  }

  lemma {:induction false} ProcsCompile(ps: seq<Proc>, scope: Sorts, cx: Context, st: State)
    requires CoreProcs(ps, scope) && Agrees(cx, scope) && Clean(st)
    ensures CompileAll(NormProcs(ps, cx, st), st)
    decreases WProcs(ps), 0
  {
    hide Core, NormProc;
    if ps != [] {
      ProcCompiles(ps[0], scope, Nil, cx, st);
      ProcsCompile(ps[1..], scope, cx, NormProc(ps[0], Nil, cx, st).value.st);
    }
  }

  lemma {:induction false} CoreAppended(ps: seq<Proc>, last: Proc, scope: Sorts)
    ensures CoreProcs(ps + [last], scope) <==> CoreProcs(ps, scope) && Core(last, scope)
    decreases |ps|
  {
    hide Core;
    if ps == [] {
      assert (ps + [last])[1..] == [];
    } else {
      CoreAppended(ps[1..], last, scope);
      assert (ps + [last])[1..] == ps[1..] + [last];
    }
  }

  lemma {:induction false} ProcsBackwardCompile(ps: seq<Proc>, scope: Sorts, cx: Context, st: State)
    requires CoreProcs(ps, scope) && Agrees(cx, scope) && Clean(st)
    ensures CompileAll(NormProcsBackward(ps, cx, st), st)
    decreases WProcs(ps), 0
  {
    hide Core, NormProc, CoreProcs;
    if ps != [] {
      var init, last := ps[..|ps| - 1], ps[|ps| - 1];
      assert ps == init + [last];
      WProcsAppend(init, last);
      CoreAppended(init, last, scope);
      ProcCompiles(last, scope, Nil, cx, st);
      ProcsBackwardCompile(init, scope, cx, NormProc(last, Nil, cx, st).value.st);
    }
  }

  lemma {:induction false} SendCompiles(
    n: Name, multiple: bool, data: seq<Proc>, scope: Sorts, acc: Par, cx: Context, st: State)
    requires CoreName(n, scope) && CoreProcs(data, scope) && Agrees(cx, scope) && Clean(st)
    ensures Compiles(NormSend(n, multiple, data, acc, cx, st), acc, st)
    decreases 1 + WName(n) + WProcs(data), 0
  {
    hide CoreName, CoreProcs, NormName, NormProcsBackward, WName, WProcs;
    NameCompiles(n, scope, cx, st);
    ProcsBackwardCompile(data, scope, cx, NormName(n, cx, st).value.st);
  }

  lemma {:induction false} CollectCompiles(c: Collection, scope: Sorts, acc: Par, cx: Context, st: State)
    requires CoreCollection(c, scope) && Agrees(cx, scope) && Clean(st)
    ensures Compiles(NormCollect(c, acc, cx, st), acc, st)
    decreases 1 + WCollection(c), 0
  {
    hide CoreProcs, CoreKeyValues, NormProcs, NormKeyValues, WProcs, WKeyValues;
    if c.CollectTuple? {
      assert ([c.first] + c.rest)[1..] == c.rest;
      TupleWeight(c.first, c.rest);
      ProcsCompile([c.first] + c.rest, scope, cx, st);
    } else if c.CollectMap? {
      KeyValuesCompile(c.kvs, scope, cx, st);
    } else {
      ProcsCompile(c.ps, scope, cx, st);
    }
  }

  lemma TupleWeight(p: Proc, rest: seq<Proc>)
    ensures WProcs([p] + rest) == 1 + WProc(p) + WProcs(rest)
  {
    assert ([p] + rest)[1..] == rest;
  }

  lemma {:induction false} KeyValuesCompile(kvs: seq<KeyValuePair>, scope: Sorts, cx: Context, st: State)
    requires CoreKeyValues(kvs, scope) && Agrees(cx, scope) && Clean(st)
    ensures NormKeyValues(kvs, cx, st).Ok? && NormKeyValues(kvs, cx, st).value.st.free == st.free
    decreases WKeyValues(kvs), 0
  {
    hide Core, NormProc;
    if kvs != [] {
      assert WKeyValues(kvs) == WKeyValue(kvs[0]) + WKeyValues(kvs[1..]);
      ProcCompiles(kvs[0].key, scope, Nil, cx, st);
      var k := NormProc(kvs[0].key, Nil, cx, st).value;
      ProcCompiles(kvs[0].value, scope, Nil, cx, k.st);
      KeyValuesCompile(kvs[1..], scope, cx, NormProc(kvs[0].value, Nil, cx, k.st).value.st);
    }
  }

  lemma {:induction false} OperatorCompiles(p: Proc, scope: Sorts, acc: Par, cx: Context, st: State)
    requires IsOperator(p) && CoreOperator(p, scope) && Agrees(cx, scope) && Clean(st)
    ensures Compiles(NormOperator(p, acc, cx, st), acc, st)
    decreases WProc(p), 8
  {
    hide Core, CoreProcs, NormProc, NormProcsBackward, NormMatches, NormNegation, NormConjunction, NormDisjunction;
    match p
    case PNot(q) => ProcCompiles(q, scope, Nil, cx, st);
    case PNeg(q) => ProcCompiles(q, scope, Nil, cx, st);
    case PBinary(_, l, r) =>
      ProcCompiles(l, scope, Nil, cx, st);
      ProcCompiles(r, scope, Nil, cx, NormProc(l, Nil, cx, st).value.st);
    case PMethod(target, _, args) =>
      ProcCompiles(target, scope, Nil, cx, st);
      ProcsBackwardCompile(args, scope, cx, NormProc(target, Nil, cx, st).value.st);
  }

  lemma {:induction false} FormCompiles(p: Proc, scope: Sorts, acc: Par, cx: Context, st: State)
    requires IsForm(p) && CoreForm(p, scope) && Agrees(cx, scope) && Clean(st)
    ensures Compiles(NormForm(p, acc, cx, st), acc, st)
    decreases WProc(p), 8
  {
    hide Core, CoreName, CoreCases, NormNew, NormBundle, NormIf, NormMatch, NormContr, PlainPatterns, Binds, Agrees;
    match p
    case PNew(names, body) => NewCompiles(names, body, scope, acc, cx, st);
    case PBundle(kind, body) => BundleCompiles(kind, body, scope, acc, cx, st);
    case PIf(cond, body) =>
      NilCore(scope);
      IfCompiles(cond, body, PNil, scope, acc, cx, st);
    case PIfElse(cond, body, otherwise) => IfCompiles(cond, body, otherwise, scope, acc, cx, st);
    case PMatch(target, cases) => MatchCompiles(target, cases, scope, acc, cx, st);
    case PContr(n, formals, remainder, body) => ContrCompiles(n, formals, remainder, body, scope, acc, cx, st);
  }

  lemma NilCore(scope: Sorts)
    ensures Core(PNil, scope)
  {
    hide CoreOperator, CoreForm, CoreSugar;
  }

  lemma {:induction false} NewCompiles(names: seq<NameDecl>, body: Proc, scope: Sorts, acc: Par, cx: Context, st: State)
    requires Core(body, scope + Declares(names)) && Agrees(cx, scope) && Clean(st)
    ensures Compiles(NormNew(names, body, acc, cx, st), acc, st)
    decreases 1 + WProc(body), 0
  {
    hide Core, NormProc, SortDecls, DeclNames, DeclUris, Agrees, WProc, BoundMap.PutAll;
    var xs := DeclNames(SortDecls(names));
    SortedDeclare(names);
    NewAgrees(cx, scope, names, xs);
    ProcCompiles(body, scope + Declares(names), Nil, cx.PutAll(xs), st);
  }

  lemma {:induction false} BundleCompiles(kind: BundleKind, body: Proc, scope: Sorts, acc: Par, cx: Context, st: State)
    requires Core(body, scope) && Agrees(cx, scope) && Clean(st)
    ensures Compiles(NormBundle(kind, body, acc, cx, st), acc, st)
    decreases 1 + WProc(body), 0
  {
    hide Core, NormProc, WProc, SingleBundle;
    ProcCompiles(body, scope, Nil, cx, st);
  }

  lemma {:induction false} IfCompiles(
    cond: Proc, body: Proc, otherwise: Proc, scope: Sorts, acc: Par, cx: Context, st: State)
    requires Core(cond, scope) && Core(body, scope) && Core(otherwise, scope) && Agrees(cx, scope) && Clean(st)
    ensures Compiles(NormIf(cond, body, otherwise, acc, cx, st), acc, st)
    decreases WProc(cond) + WProc(body) + WProc(otherwise) + 1, 0
  {
    hide Core, NormProc, WProc, FromExpr;
    ProcCompiles(cond, scope, acc, cx, st);
    var target := NormProc(cond, acc, cx, st).value;
    ProcCompiles(body, scope, Nil, cx, target.st);
    ProcCompiles(otherwise, scope, Nil, cx, NormProc(body, Nil, cx, target.st).value.st);
  }

  lemma {:induction false} MatchCompiles(target: Proc, cases: seq<Case>, scope: Sorts, acc: Par, cx: Context, st: State)
    requires Core(target, scope) && CoreCases(cases, scope) && Agrees(cx, scope) && Clean(st)
    ensures Compiles(NormMatch(target, cases, acc, cx, st), acc, st)
    decreases 1 + WProc(target) + WCases(cases), 0
  {
    hide Core, CoreCases, NormProc, NormCases, WProc, WCases;
    ProcCompiles(target, scope, Nil, cx, st);
    CasesCompile(cases, scope, cx, NormProc(target, Nil, cx, st).value.st);
  }

  lemma CasePatternCompiles(q: Proc, cx: Context, supply: nat)
    requires CorePattern(q)
    ensures var r := NormProc(q, Nil, cx.Push(), State(EmptyFreeMap, supply));
            r.Ok? && BindsExactly(r.value.st.free, PatternBinds(q))
  {
    hide NormGround, NormOperator, NormForm, NormSugar, NormEval, NormPPar, NormSend, NormCollect, NormVarRef;
    if q.PGround? { LiteralsCompile(q.g); }
  }

  lemma {:induction false} CasesCompile(cases: seq<Case>, scope: Sorts, cx: Context, st: State)
    requires CoreCases(cases, scope) && Agrees(cx, scope) && Clean(st)
    ensures NormCases(cases, cx, st).Ok? && NormCases(cases, cx, st).value.st.free == st.free
    decreases WCases(cases), 0
  {
    hide Core, NormProc, CorePattern, PatternBinds;
    if cases != [] {
      assert WCases(cases) == WCase(cases[0]) + WCases(cases[1..]);
      CasePatternCompiles(cases[0].pattern, cx, st.supply);
      var pat := NormProc(cases[0].pattern, Nil, cx.Push(), State(EmptyFreeMap, st.supply)).value;
      AbsorbAgrees(cx, scope, pat.st.free, PatternBinds(cases[0].pattern));
      var inner, st' := cx.AbsorbFree(pat.st.free), State(st.free, pat.st.supply);
      ProcCompiles(cases[0].body, scope + PatternBinds(cases[0].pattern), Nil, inner, st');
      CasesCompile(cases[1..], scope, cx, NormProc(cases[0].body, Nil, inner, st').value.st);
    }
  }

  lemma {:induction false} ContrCompiles(
    n: Name, formals: seq<Name>, remainder: Remainder, body: Proc, scope: Sorts, acc: Par, cx: Context, st: State)
    requires CoreName(n, scope) && PlainPatterns(formals, remainder) && Core(body, scope + Binds(formals, remainder))
    requires Agrees(cx, scope) && Clean(st)
    ensures Compiles(NormContr(n, formals, remainder, body, acc, cx, st), acc, st)
    decreases WName(n) + WNames(formals) + WProc(body) + 1, 0
  {
    hide Core, CoreName, NormName, NormNames, NormRemainder, FinishContr, PlainPatterns, Binds, WName, WNames, WProc,
         Agrees, BindsExactly;
    NameCompiles(n, scope, cx, st);
    var name := NormName(n, cx, st).value;
    PatternsThenRemainder(formals, remainder, cx.Depth() == 0, cx, name.st.supply);
    var fs := NormNames(formals, cx.Depth() == 0, cx.Push(), State(EmptyFreeMap, name.st.supply)).value;
    FinishContrCompiles(name, fs, remainder, body, scope, acc, cx, Binds(formals, remainder));
  }

  lemma {:induction false} FinishContrCompiles(
    name: Out, fs: Outs, remainder: Remainder, body: Proc, scope: Sorts, acc: Par, cx: Context, sorts: Sorts)
    requires NormRemainder(remainder, fs.st.free).Ok? && BindsExactly(NormRemainder(remainder, fs.st.free).value.free, sorts)
    requires Core(body, scope + sorts) && Agrees(cx, scope) && Clean(name.st)
    ensures Compiles(FinishContr(name, fs, remainder, body, acc, cx), acc, name.st)
    decreases WProc(body), 10
  {
    hide Core, NormRemainder, NormProc, WProc, Agrees, BoundMap.AbsorbFree;
    var rest := NormRemainder(remainder, fs.st.free).value;
    AbsorbAgrees(cx, scope, rest.free, sorts);
    ProcCompiles(body, scope + sorts, Nil, cx.AbsorbFree(rest.free), State(name.st.free, fs.st.supply));
  }

  lemma {:induction false} SugarCompiles(p: Proc, scope: Sorts, acc: Par, cx: Context, st: State)
    requires IsSugar(p) && CoreSugar(p, scope) && Agrees(cx, scope) && Clean(st)
    ensures Compiles(NormSugar(p, acc, cx, st), acc, st)
    decreases WProc(p), 7
  {
    hide Core, CoreReceipt, CoreLet, NormProc, NormReceipt, NormLet, Agrees, DesugarSendSynch, DesugarChoice,
         NestReceipts;
    match p
    case PSendSynch(n, data, cont) =>
      var x := Fresh(st.supply);
      SendSynchWeight(n, data, cont, x);
      ProcCompiles(DesugarSendSynch(n, data, cont, x), scope, acc, cx, State(st.free, st.supply + 1));
    case PInput(receipts, body) =>
      if |receipts| > 1 {
        NestWeight(receipts, body);
        ProcCompiles(NestReceipts(receipts, body), scope, acc, cx, st);
      } else {
        assert receipts == [receipts[0]];
        OneReceiptWeight(receipts[0], body);
        ReceiptCompiles(receipts[0], body, scope, acc, cx, st);
      }
    case PLet(d, ds, body) => LetCompiles(d, ds, body, scope, acc, cx, st);
    case PChoice(branches) =>
      ChoiceWeight(branches);
      ProcCompiles(DesugarChoice(branches), scope, acc, cx, st);
  }

  lemma {:induction false} ReceiptCompiles(r: Receipt, body: Proc, scope: Sorts, acc: Par, cx: Context, st: State)
    requires CoreReceipt(r, body, scope) && Agrees(cx, scope) && Clean(st)
    ensures Compiles(NormReceipt(r, body, acc, cx, st), acc, st)
    decreases 1 + WReceipt(r) + WProc(body), 5
  {
    hide Core, CoreReceive, NormProc, NormReceive, Agrees, SimpleBinds, DesugarComplex, Assemble, IsComplex;
    match r
    case ReceiptLinear(bs) =>
      if IsComplex(bs) {
        var c := DesugarComplex(bs, body, st.supply);
        ComplexWeight(bs, body, st.supply);
        OneReceiptWeight(r, body);
        ProcCompiles(Assemble(c), scope, acc, cx, State(st.free, c.supply));
      } else {
        SimpleBindsWeight(bs);
        ReceiveCompiles(SimpleBinds(bs), false, false, body, scope, acc, cx, st);
      }
    case ReceiptRepeated(bs) => ReceiveCompiles(bs, true, false, body, scope, acc, cx, st);
    case ReceiptPeek(bs) => ReceiveCompiles(bs, false, true, body, scope, acc, cx, st);
  }

  lemma {:induction false} ReceiveCompiles(
    bs: seq<NameBind>, persistent: bool, peek: bool, body: Proc, scope: Sorts, acc: Par, cx: Context, st: State)
    requires CoreReceive(bs, body, scope) && Agrees(cx, scope) && Clean(st)
    ensures Compiles(NormReceive(bs, persistent, peek, body, acc, cx, st), acc, st)
    decreases 1 + WBinds(bs) + WProc(body), 4
  {
    hide Core, CoreName, NormName, NormNames, NormRemainder, FinishReceive, PlainPatterns, Binds, Agrees, WName,
         WNames, WProc;
    var b := bs[0];
    assert WBinds(bs) == WBind(b) + WBinds(bs[1..]) && bs[1..] == [];
    NameCompiles(b.source, scope, cx, st);
    var source := NormName(b.source, cx, st).value;
    assert NormSources([], cx, source.st) == Ok(Outs([], source.st));
    var sources := Outs([source.par], source.st);
    assert [source.par] + [] == [source.par];
    assert NormSources(bs, cx, st) == Ok(sources);
    PatternsThenRemainder(b.names, b.remainder, cx.Depth() == 0, cx, source.st.supply);
    var ps := NormNames(b.names, cx.Depth() == 0, cx.Push(), State(EmptyFreeMap, source.st.supply)).value;
    var m := NormRemainder(b.remainder, ps.st.free).value;
    var binds := BindOuts([(ReceiveBind(ps.pars, source.par, m.v, m.free.nextLevel), m.free)], ps.st.supply);
    assert NormBinds([], [], cx, ps.st.supply) == Ok(BindOuts([], ps.st.supply));
    assert sources.pars[1..] == [];
    assert binds.binds + [] == binds.binds;
    assert NormBinds(bs, sources.pars, cx, source.st.supply) == Ok(binds);
    FinishReceiveCompiles(sources, binds, persistent, peek, body, scope, acc, cx, Binds(b.names, b.remainder));
  }

  lemma {:induction false} FinishReceiveCompiles(
    sources: Outs, binds: BindOuts, persistent: bool, peek: bool, body: Proc, scope: Sorts, acc: Par, cx: Context, sorts: Sorts)
    requires |binds.binds| == 1 && BindsExactly(binds.binds[0].1, sorts) && Core(body, scope + sorts)
    requires Agrees(cx, scope) && Clean(sources.st)
    ensures Compiles(FinishReceive(sources, binds, persistent, peek, body, acc, cx), acc, sources.st)
    decreases WProc(body), 10
  {
    hide Core, NormProc, SortBindsWith, Agrees, BoundMap.AbsorbFree;
    var sorted := SortBindsWith(binds.binds);
    OneBindSorted(binds.binds);
    var fm := EmptyFreeMap.Merge(sorted[0].1);
    assert FreeMapsOf(sorted)[1..] == [];
    assert MergeFreeMaps(EmptyFreeMap, FreeMapsOf(sorted)) == Ok(fm);
    AbsorbAgrees(cx, scope, fm, sorts);
    ProcCompiles(body, scope + sorts, Nil, cx.AbsorbFree(fm), State(sources.st.free, binds.supply));
  }

  lemma OneBindSorted(binds: seq<(ReceiveBind, FreeMap)>)
    requires |binds| == 1
    ensures |SortBindsWith(binds)| == 1 && SortBindsWith(binds)[0].1 == binds[0].1
  {
    hide SortReceiveBind;
    var scored := ScoreBindsWith(binds);
    assert scored[1..] == [] && Sort(scored) == Insert(scored[0], []);
  }

  lemma {:induction false} LetCompiles(d: Decl, ds: Decls, body: Proc, scope: Sorts, acc: Par, cx: Context, st: State)
    requires CoreLet(d, ds, body, scope) && Agrees(cx, scope) && Clean(st)
    ensures Compiles(NormLet(d, ds, body, acc, cx, st), acc, st)
    decreases WProc(PLet(d, ds, body)), 0
  {
    hide Core, CoreLetMatch, NormProc, NormLetMatch, Agrees, LetContinuation, DesugarConcLet;
    match ds
    case EmptyDecls => LetMatchCompiles(d, body, scope, acc, cx, st);
    case LinearDecls(more) =>
      LetContinuationWeight(d, more, body);
      LetMatchCompiles(d, LetContinuation(more, body), scope, acc, cx, st);
    case ConcDecls(more) =>
      ConcLetWeight(d, more, body, st.supply);
      ProcCompiles(DesugarConcLet([d] + more, body, st.supply), scope, acc, cx, State(st.free, st.supply + 1 + |more|));
  }

  lemma {:induction false} LetMatchCompiles(d: Decl, continuation: Proc, scope: Sorts, acc: Par, cx: Context, st: State)
    requires CoreLetMatch(d, continuation, scope) && Agrees(cx, scope) && Clean(st)
    ensures Compiles(NormLetMatch(d, continuation, acc, cx, st), acc, st)
    decreases 19 + WDecl(d) + WProc(continuation), 0
  {
    hide Core, CoreProcs, NormProc, NormProcs, NormNames, NormRemainder, PlainPatterns, Binds, WNames, WProcs, WProc,
         FromExpr;
    ProcsCompile(d.procs, scope, cx, st);
    var values := NormProcs(d.procs, cx, st).value;
    RemainderThenPatterns(d.names, d.remainder, cx, values.st.supply);
    var rest := NormRemainder(d.remainder, EmptyFreeMap).value;
    var names := NormNames(d.names, false, cx.Push(), State(rest.free, values.st.supply)).value;
    AbsorbAgrees(cx, scope, names.st.free, Binds(d.names, d.remainder));
    ProcCompiles(continuation, scope + Binds(d.names, d.remainder), Nil, cx.AbsorbFree(names.st.free),
                 State(values.st.free, names.st.supply));
  }

  /** A closed core program passes `normalize_term`. */
  lemma CoreProgramsCompile(p: Proc, env: seq<Injection>, supply: nat)
    requires Core(p, map[])
    ensures NormalizeTerm(p, env, supply).Ok?
  {
    hide Core, NormProc;
    ProcCompiles(p, map[], Nil, Context([EmptyBoundMap], env), State(EmptyFreeMap, supply));
  }
}
