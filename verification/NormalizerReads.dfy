/** Every term the normalizer builds reads as the source it was built from: one induction over the
    whole normalizer, for every source form, context, free map and accumulator. */
module NormalizerReads {
  import opened Orders
  import opened ScoreTree
  import opened StableSort
  import opened Ast
  import opened ParOps
  import opened Sorter
  import opened Scope
  import opened ProcAst
  import opened Contexts
  import opened ContextLaws
  import opened Desugar
  import opened Normalizer
  import opened NormalizerScope
  import opened Reading

  // ----- contexts and names

  /** The bound map holds the names in scope, each at its last position and with its sort. */
  ghost predicate Holds(bm: BoundMap, names: seq<Bound>) {
    && bm.nextIndex == |names|
    && (forall x :: x in bm.bindings <==> IsBound(names, x))
    && (forall x :: x in bm.bindings ==> LastBound(names, x, bm.bindings[x].typ, bm.bindings[x].index))
  }

  ghost predicate Follows(cx: Context, ns: Names) {
    cx.env == ns.env && |cx.chain| == |ns.chain| && forall i :: 0 <= i < |cx.chain| ==> Holds(cx.chain[i], ns.chain[i])
  }

  /** `free` lists the names of the free map by level, and perhaps more. */
  ghost predicate Listed(fm: FreeMap, free: seq<Bound>) {
    forall x :: x in fm.bindings ==>
      0 <= fm.bindings[x].level < |free| && free[fm.bindings[x].level] == Bound(x, fm.bindings[x].typ)
  }

  /** A free map only grows: nothing that was met is forgotten. */
  ghost predicate Extends(a: FreeMap, b: FreeMap) {
    && (forall x :: x in a.bindings ==> x in b.bindings && b.bindings[x] == a.bindings[x])
    && a.wildcards <= b.wildcards && a.connectives <= b.connectives
  }

  /** `added` lists exactly the names of the free map, by level. */
  ghost predicate Leveled(fm: FreeMap, added: seq<Bound>) {
    && |added| == fm.nextLevel && Listed(fm, added)
    && forall l :: 0 <= l < |added| ==> added[l].x in fm.bindings && fm.bindings[added[l].x].level == l
  }

  ghost function LevelNames(fm: FreeMap): seq<Bound>
    requires fm.Valid()
  {
    seq(fm.nextLevel, l requires 0 <= l < fm.nextLevel => var x := NameAtLevel(fm, l); Bound(x, fm.bindings[x].typ))
  }

  lemma LevelNamesList(fm: FreeMap)
    requires fm.Valid()
    ensures |LevelNames(fm)| == fm.nextLevel && Listed(fm, LevelNames(fm)) && Leveled(fm, LevelNames(fm))
  {
  }

  lemma ListedBefore(a: FreeMap, b: FreeMap, free: seq<Bound>)
    requires Extends(a, b) && Listed(b, free)
    ensures Listed(a, free)
  {
  }

  lemma ExtendsThrough(a: FreeMap, b: FreeMap, c: FreeMap)
    requires Extends(a, b) && Extends(b, c)
    ensures Extends(a, c)
  {
  }

  lemma HoldsNothing()
    ensures Holds(EmptyBoundMap, [])
  {
  }

  lemma HoldsPut(bm: BoundMap, names: seq<Bound>, x: Ident)
    requires Holds(bm, names)
    ensures Holds(bm.Put(x, NameSort), names + [Bound(x, NameSort)])
  {
    var r, all := bm.Put(x, NameSort), names + [Bound(x, NameSort)];
    forall y ensures y in r.bindings <==> IsBound(all, y) {
      if y == x { assert all[|names|].x == x; }
      if i :| 0 <= i < |names| && names[i].x == y { assert all[i].x == y; }
    }
  }

  function AllNames(xs: seq<Ident>): seq<Bound> {
    seq(|xs|, i requires 0 <= i < |xs| => Bound(xs[i], NameSort))
  }

  lemma {:induction false} HoldsPutAll(bm: BoundMap, names: seq<Bound>, xs: seq<Ident>)
    requires Holds(bm, names)
    ensures Holds(bm.PutAll(xs, NameSort), names + AllNames(xs))
    decreases |xs|
  {
    hide Holds;
    if xs == [] {
      assert names + AllNames(xs) == names;
    } else {
      HoldsPut(bm, names, xs[0]);
      HoldsPutAll(bm.Put(xs[0], NameSort), names + [Bound(xs[0], NameSort)], xs[1..]);
      assert names + [Bound(xs[0], NameSort)] + AllNames(xs[1..]) == names + AllNames(xs);
    }
  }

  lemma HoldsAbsorb(bm: BoundMap, names: seq<Bound>, fm: FreeMap, added: seq<Bound>)
    requires Holds(bm, names) && Leveled(fm, added)
    ensures Holds(bm.AbsorbFree(fm), names + added)
  {
    var r, all := bm.AbsorbFree(fm), names + added;
    forall x ensures x in r.bindings <==> IsBound(all, x) {
      if x in fm.bindings { assert all[|names| + fm.bindings[x].level].x == x; }
      if i :| 0 <= i < |names| && names[i].x == x { assert all[i].x == x; }
      if i :| 0 <= i < |all| && all[i].x == x { assert i < |names| ==> names[i].x == x; }
    }
    forall x | x in r.bindings ensures LastBound(all, x, r.bindings[x].typ, r.bindings[x].index) {
    }
  }

  lemma PushFollows(cx: Context, ns: Names, fs: seq<Bound>)
    requires Follows(cx, ns)
    ensures Follows(cx.Push(), ns.InPattern(fs))
  {
    hide Holds;
    HoldsNothing();
    var chain, names := cx.Push().chain, ns.InPattern(fs).chain;
    forall i | 0 <= i < |chain| ensures Holds(chain[i], names[i]) {
      if i > 0 { assert chain[i] == cx.chain[i - 1] && names[i] == ns.chain[i - 1]; }
    }
  }

  lemma HeadFollows(cx: Context, ns: Names, bm: BoundMap, xs: seq<Bound>)
    requires Follows(cx, ns) && Holds(bm, ns.chain[0] + xs)
    ensures Follows(cx.Head(bm), ns.Under(xs))
  {
    hide Holds;
    var chain, names := cx.Head(bm).chain, ns.Under(xs).chain;
    forall i | 0 <= i < |chain| ensures Holds(chain[i], names[i]) {
      if i > 0 { assert chain[i] == cx.chain[i] && names[i] == ns.chain[i]; }
    }
  }

  lemma AbsorbFollows(cx: Context, ns: Names, fm: FreeMap)
    requires Follows(cx, ns) && fm.Valid()
    ensures Follows(cx.AbsorbFree(fm), ns.Under(LevelNames(fm)))
  {
    hide Holds, LevelNames, FreeMap.Valid, Leveled;
    assert Holds(cx.chain[0], ns.chain[0]);
    LevelNamesList(fm);
    HoldsAbsorb(cx.chain[0], ns.chain[0], fm, LevelNames(fm));
    HeadFollows(cx, ns, cx.chain[0].AbsorbFree(fm), LevelNames(fm));
  }

  lemma PutFollows(cx: Context, ns: Names, xs: seq<Ident>)
    requires Follows(cx, ns)
    ensures Follows(cx.PutAll(xs), ns.Under(AllNames(xs)))
  {
    hide Holds;
    assert Holds(cx.chain[0], ns.chain[0]);
    HoldsPutAll(cx.chain[0], ns.chain[0], xs);
    HeadFollows(cx, ns, cx.chain[0].PutAll(xs, NameSort), AllNames(xs));
  }

  // ----- variables, remainders and literals

  lemma BoundReads(x: Ident, cx: Context, ns: Names)
    requires Follows(cx, ns)
    ensures cx.Get(x).Some? <==> IsBound(ns.chain[0], x)
    ensures cx.Get(x).Some? ==> ReadsVar(x, cx.Get(x).value.typ, ns, BoundVar(cx.Get(x).value.index))
  {
    assert Holds(cx.chain[0], ns.chain[0]);
  }

  lemma ProcVarReads(v: ProcVar, acc: Par, cx: Context, st: State, r: Out, ns: Names)
    requires Ready(cx, st) && Follows(cx, ns) && NormProcVar(v, acc, cx, st) == Ok(r) && Listed(r.st.free, ns.free)
    ensures Extends(st.free, r.st.free) && Reads(PVar(v), ns, acc, r.par)
  {
    hide ReadsOperator, ReadsForm, ReadsSugar, ReadsEval, ReadsPPar, ReadsSend, ReadsCollection, ReadsGround, Holds,
         FreeMap.Valid;
    if v.ProcVarVar? {
      BoundReads(v.x, cx, ns);
      if cx.Get(v.x).None? {
        assert r.st.free.bindings[v.x].level == st.free.nextLevel;
        assert ReadsVar(v.x, ProcSort, ns, FreeVar(st.free.nextLevel));
      }
    }
    assert MoreExpr(acc, r.par);
  }

  lemma NameVarReads(x: Ident, cx: Context, st: State, r: Out, ns: Names)
    requires Ready(cx, st) && Follows(cx, ns) && NormNameVar(x, cx, st) == Ok(r) && Listed(r.st.free, ns.free)
    ensures Extends(st.free, r.st.free) && ReadsName(NameVar(x), ns, r.par)
  {
    BoundReads(x, cx, ns);
    if cx.Get(x).None? {
      assert r.st.free.bindings[x].level == st.free.nextLevel;
      assert ReadsVar(x, NameSort, ns, FreeVar(st.free.nextLevel));
    }
    assert r.par == FromExpr(r.par.exprs[0]);
  }

  lemma {:induction false} FoundReads(chain: seq<BoundMap>, names: seq<seq<Bound>>, x: Ident)
    requires |chain| == |names| && forall i :: 0 <= i < |chain| ==> Holds(chain[i], names[i])
    ensures ChainFind(chain, x).Some? ==>
              var (bc, depth) := ChainFind(chain, x).value;
              ReadsRef(if bc.typ == ProcSort then VarRefKindProc else VarRefKindName, x, names, VarRef(bc.index, depth))
    decreases |chain|
  {
    if chain != [] {
      assert Holds(chain[0], names[0]);
      if chain[0].Get(x).None? {
        FoundReads(chain[1..], names[1..], x);
        if ChainFind(chain[1..], x).Some? {
          var (bc, depth) := ChainFind(chain[1..], x).value;
          assert names[1..][depth] == names[depth + 1];
          forall k | 0 <= k < depth + 1 ensures !IsBound(names[k], x) {
            if k > 0 { assert names[1..][k - 1] == names[k]; }
          }
        }
      }
    }
  }

  lemma VarRefReads(kind: VarRefKind, x: Ident, acc: Par, cx: Context, st: State, r: Out, ns: Names)
    requires Follows(cx, ns) && NormVarRef(kind, x, acc, cx, st) == Ok(r)
    ensures r.st == st && Reads(PVarRef(kind, x), ns, acc, r.par)
  {
    hide ReadsOperator, ReadsForm, ReadsSugar, ReadsEval, ReadsPPar, ReadsSend, ReadsCollection, ReadsGround,
         ReadsVar, Holds;
    FoundReads(cx.chain, ns.chain, x);
    assert MoreConnective(acc, r.par);
  }

  lemma RemainderReads(m: Remainder, fm: FreeMap, rest: Rest, free: seq<Bound>)
    requires NormRemainder(m, fm) == Ok(rest) && Listed(rest.free, free)
    ensures Extends(fm, rest.free) && ReadsRemainder(m, free, rest.v)
  {
    if m.RemainderVar? && m.v.ProcVarVar? {
      assert rest.free.bindings[m.v.x].level == fm.nextLevel;
    }
  }

  lemma {:induction false} SameDecimal(s: string)
    ensures DigitsValue(s) == Decimal(s)
  {
    if s != "" { SameDecimal(s[..|s| - 1]); }
  }

  lemma DecimalReads(s: string)
    ensures ParseDecimal(s).Some? ==> Denotes(s, ParseDecimal(s).value)
  {
    if s != "" { SameDecimal(s[1..]); }
    SameDecimal(s);
  }

  lemma GroundReads(g: Ground)
    ensures NormGround(g).Ok? ==> ReadsGround(g, NormGround(g).value)
  {
    hide ParseDecimal, Denotes;
    match g
    case GroundInt(s) => DecimalReads(s);
    case GroundBigInt(s) => DecimalReads(s);
    case _ =>
  }

  // ----- validity along the way

  lemma ProcGrown(p: Proc, acc: Par, cx: Context, st: State, r: Out)
    requires Ready(cx, st) && NormProc(p, acc, cx, st) == Ok(r)
    ensures Grown(st, r.st)
  {
    hide NormProc;
    ProcOk(Below(0), p, acc, cx, st, r);
  }

  lemma NameGrown(n: Name, cx: Context, st: State, r: Out)
    requires Ready(cx, st) && NormName(n, cx, st) == Ok(r)
    ensures Grown(st, r.st)
  {
    hide NormName;
    NameOk(Below(0), n, cx, st, r);
  }

  // ----- the induction

  lemma {:induction false} NameReads(n: Name, cx: Context, st: State, r: Out, ns: Names)
    requires Ready(cx, st) && Follows(cx, ns) && NormName(n, cx, st) == Ok(r) && Listed(r.st.free, ns.free)
    ensures Extends(st.free, r.st.free) && ReadsName(n, ns, r.par)
    decreases WName(n), 0
  {
    hide NormProc, Reads, NormNameVar, FreeMap.Valid, BoundMap.Valid;
    match n
    case NameWildcard =>
    case NameVar(x) => NameVarReads(x, cx, st, r, ns);
    case NameQuote(p) => ProcReads(p, Nil, cx, st, r, ns);
  }

  /** What the normalizer builds reads as what it was given. */
  lemma {:induction false} ProcReads(p: Proc, acc: Par, cx: Context, st: State, r: Out, ns: Names)
    requires Ready(cx, st) && Follows(cx, ns) && NormProc(p, acc, cx, st) == Ok(r) && Listed(r.st.free, ns.free)
    ensures Extends(st.free, r.st.free) && Reads(p, ns, acc, r.par)
    decreases WProc(p), 9
  {
    hide NormOperator, NormForm, NormSugar, ReadsOperator, ReadsForm, ReadsSugar, FreeMap.Valid, BoundMap.Valid;
    if IsOperator(p) {
      OperatorReads(p, acc, cx, st, r, ns);
    } else if IsForm(p) {
      FormReads(p, acc, cx, st, r, ns);
    } else if IsSugar(p) {
      SugarReads(p, acc, cx, st, r, ns);
    } else {
      BasicReads(p, acc, cx, st, r, ns);
    }
  }

  lemma {:induction false} BasicReads(p: Proc, acc: Par, cx: Context, st: State, r: Out, ns: Names)
    requires !IsOperator(p) && !IsForm(p) && !IsSugar(p)
    requires Ready(cx, st) && Follows(cx, ns) && NormProc(p, acc, cx, st) == Ok(r) && Listed(r.st.free, ns.free)
    ensures Extends(st.free, r.st.free) && Reads(p, ns, acc, r.par)
    decreases WProc(p), 8
  {
    hide NormOperator, NormForm, NormSugar, ReadsOperator, ReadsForm, ReadsSugar, ReadsRef, ReadsVar, NormEval,
         NormPPar, NormSend, NormCollect, NormProcVar, NormVarRef, ReadsEval, ReadsPPar, ReadsSend, ReadsCollection,
         ReadsGround, NormGround, FreeMap.Valid, BoundMap.Valid, Follows;
    match p
    case PGround(g) => GroundReads(g);
    case PNil =>
    case PExprs(q) => ProcReads(q, acc, cx, st, r, ns);
    case PVar(v) => ProcVarReads(v, acc, cx, st, r, ns);
    case PVarRef(kind, x) => VarRefReads(kind, x, acc, cx, st, r, ns);
    case PSimpleType(t) =>
    case PEval(n) => EvalReads(n, acc, cx, st, r, ns);
    case PPar(l, q) => PParReads(l, q, acc, cx, st, r, ns);
    case PSend(n, multiple, data) => SendReads(n, multiple, data, acc, cx, st, r, ns);
    case PCollect(c) => CollectReads(c, acc, cx, st, r, ns);
  }

  lemma {:induction false} OperatorReads(p: Proc, acc: Par, cx: Context, st: State, r: Out, ns: Names)
    requires IsOperator(p)
    requires Ready(cx, st) && Follows(cx, ns) && NormOperator(p, acc, cx, st) == Ok(r) && Listed(r.st.free, ns.free)
    ensures Extends(st.free, r.st.free) && ReadsOperator(p, ns, acc, r.par)
    decreases WProc(p), 8
  {
    hide NormNot, NormNeg, NormBinary, NormMatches, NormNegation, NormConjunction, NormDisjunction, NormMethod,
         ReadsNot, ReadsNeg, ReadsBinary, ReadsMatches, ReadsNegation, ReadsConjunction, ReadsDisjunction,
         ReadsMethod, FreeMap.Valid, BoundMap.Valid, Follows;
    match p
    case PNot(q) => NotReads(q, acc, cx, st, r, ns);
    case PNeg(q) => NegReads(q, acc, cx, st, r, ns);
    case PBinary(op, l, q) => BinaryReads(op, l, q, acc, cx, st, r, ns);
    case PMatches(l, q) => MatchesReads(l, q, acc, cx, st, r, ns);
    case PNegation(q) => NegationReads(q, acc, cx, st, r, ns);
    case PConjunction(l, q) => ConjunctionReads(l, q, acc, cx, st, r, ns);
    case PDisjunction(l, q) => DisjunctionReads(l, q, acc, cx, st, r, ns);
    case PMethod(target, name, args) => MethodReads(target, name, args, acc, cx, st, r, ns);
  }

  lemma {:induction false} FormReads(p: Proc, acc: Par, cx: Context, st: State, r: Out, ns: Names)
    requires IsForm(p)
    requires Ready(cx, st) && Follows(cx, ns) && NormForm(p, acc, cx, st) == Ok(r) && Listed(r.st.free, ns.free)
    ensures Extends(st.free, r.st.free) && ReadsForm(p, ns, acc, r.par)
    decreases WProc(p), 8
  {
    hide NormNew, NormBundle, NormIf, NormMatch, NormContr, ReadsNew, ReadsBundle, ReadsIf, ReadsMatch, ReadsContr,
         FreeMap.Valid, BoundMap.Valid, Follows;
    match p
    case PNew(names, body) => NewReads(names, body, acc, cx, st, r, ns);
    case PBundle(kind, body) => BundleReads(kind, body, acc, cx, st, r, ns);
    case PIf(cond, body) => IfReads(cond, body, PNil, acc, cx, st, r, ns);
    case PIfElse(cond, body, otherwise) => IfReads(cond, body, otherwise, acc, cx, st, r, ns);
    case PMatch(target, cases) => MatchReads(target, cases, acc, cx, st, r, ns);
    case PContr(n, formals, remainder, body) => ContrReads(n, formals, remainder, body, acc, cx, st, r, ns);
  }

  lemma {:induction false} SugarReads(p: Proc, acc: Par, cx: Context, st: State, r: Out, ns: Names)
    requires IsSugar(p)
    requires Ready(cx, st) && Follows(cx, ns) && NormSugar(p, acc, cx, st) == Ok(r) && Listed(r.st.free, ns.free)
    ensures Extends(st.free, r.st.free) && ReadsSugar(p, ns, acc, r.par)
    decreases WProc(p), 7
  {
    hide NormSendSynch, NormInput, NormLet, NormChoice, ReadsSendSynch, ReadsInput, ReadsLet, ReadsChoice,
         FreeMap.Valid, BoundMap.Valid, Follows;
    match p
    case PSendSynch(n, data, cont) => SendSynchReads(n, data, cont, acc, cx, st, r, ns);
    case PInput(receipts, body) => InputReads(receipts, body, acc, cx, st, r, ns);
    case PLet(d, ds, body) => LetReads(d, ds, body, acc, cx, st, r, ns);
    case PChoice(branches) => ChoiceReads(branches, acc, cx, st, r, ns);
  }

  lemma {:induction false} EvalReads(n: Name, acc: Par, cx: Context, st: State, r: Out, ns: Names)
    requires Ready(cx, st) && Follows(cx, ns) && NormEval(n, acc, cx, st) == Ok(r) && Listed(r.st.free, ns.free)
    ensures Extends(st.free, r.st.free) && ReadsEval(n, ns, acc, r.par)
    decreases WName(n), 1
  {
    hide NormName, ReadsName, ParConcat, FreeMap.Valid, BoundMap.Valid, Follows;
    NameReads(n, cx, st, NormName(n, cx, st).value, ns);
  }

  lemma {:induction false} PParReads(l: Proc, q: Proc, acc: Par, cx: Context, st: State, r: Out, ns: Names)
    requires Ready(cx, st) && Follows(cx, ns) && NormPPar(l, q, acc, cx, st) == Ok(r) && Listed(r.st.free, ns.free)
    ensures Extends(st.free, r.st.free) && ReadsPPar(l, q, ns, acc, r.par)
    decreases 1 + WProc(l) + WProc(q), 0
  {
    hide WProc, NormProc, Reads, FreeMap.Valid, BoundMap.Valid, Follows, Listed, Extends;
    var left := NormProc(l, acc, cx, st).value;
    ProcGrown(l, acc, cx, st, left);
    ProcReads(q, left.par, cx, left.st, r, ns);
    ListedBefore(left.st.free, r.st.free, ns.free);
    ProcReads(l, acc, cx, st, left, ns);
    ExtendsThrough(st.free, left.st.free, r.st.free);
  }

  /** Two subterms normalized one after the other. */
  lemma {:induction false} PairReads(l: Proc, q: Proc, cx: Context, st: State, left: Out, right: Out, ns: Names)
    requires Ready(cx, st) && Follows(cx, ns) && Listed(right.st.free, ns.free)
    requires NormProc(l, Nil, cx, st) == Ok(left) && NormProc(q, Nil, cx, left.st) == Ok(right)
    ensures Extends(st.free, right.st.free) && Reads(l, ns, Nil, left.par) && Reads(q, ns, Nil, right.par)
    decreases WProc(l) + WProc(q), 10
  {
    hide WProc, NormProc, Reads, FreeMap.Valid, BoundMap.Valid, Follows, Listed, Extends;
    ProcGrown(l, Nil, cx, st, left);
    ProcReads(q, Nil, cx, left.st, right, ns);
    ListedBefore(left.st.free, right.st.free, ns.free);
    ProcReads(l, Nil, cx, st, left, ns);
    ExtendsThrough(st.free, left.st.free, right.st.free);
  }

  lemma {:induction false} NotReads(p: Proc, acc: Par, cx: Context, st: State, r: Out, ns: Names)
    requires Ready(cx, st) && Follows(cx, ns) && NormNot(p, acc, cx, st) == Ok(r) && Listed(r.st.free, ns.free)
    ensures Extends(st.free, r.st.free) && ReadsNot(p, ns, acc, r.par)
    decreases 1 + WProc(p), 0
  {
    hide WProc, NormProc, Reads, FreeMap.Valid, BoundMap.Valid, Follows, Listed, Extends;
    ProcReads(p, Nil, cx, st, NormProc(p, Nil, cx, st).value, ns);
  }

  lemma {:induction false} NegReads(p: Proc, acc: Par, cx: Context, st: State, r: Out, ns: Names)
    requires Ready(cx, st) && Follows(cx, ns) && NormNeg(p, acc, cx, st) == Ok(r) && Listed(r.st.free, ns.free)
    ensures Extends(st.free, r.st.free) && ReadsNeg(p, ns, acc, r.par)
    decreases 1 + WProc(p), 0
  {
    hide WProc, NormProc, Reads, FreeMap.Valid, BoundMap.Valid, Follows, Listed, Extends;
    ProcReads(p, Nil, cx, st, NormProc(p, Nil, cx, st).value, ns);
  }

  lemma {:induction false} BinaryReads(op: SourceOp, l: Proc, q: Proc, acc: Par, cx: Context, st: State, r: Out, ns: Names)
    requires Ready(cx, st) && Follows(cx, ns) && NormBinary(op, l, q, acc, cx, st) == Ok(r)
    requires Listed(r.st.free, ns.free)
    ensures Extends(st.free, r.st.free) && ReadsBinary(op, l, q, ns, acc, r.par)
    decreases 1 + WProc(l) + WProc(q), 0
  {
    hide WProc, NormProc, Reads, FreeMap.Valid, BoundMap.Valid, Follows, Listed, Extends;
    var left := NormProc(l, Nil, cx, st).value;
    PairReads(l, q, cx, st, left, NormProc(q, Nil, cx, left.st).value, ns);
  }

  lemma {:induction false} MatchesReads(l: Proc, q: Proc, acc: Par, cx: Context, st: State, r: Out, ns: Names)
    requires Ready(cx, st) && Follows(cx, ns) && NormMatches(l, q, acc, cx, st) == Ok(r) && Listed(r.st.free, ns.free)
    ensures Extends(st.free, r.st.free) && ReadsMatches(l, q, ns, acc, r.par)
    decreases 1 + WProc(l) + WProc(q), 0
  {
    hide WProc, NormProc, Reads, FreeMap.Valid, BoundMap.Valid, Follows, Listed, Extends, LevelNames;
    var left := NormProc(l, Nil, cx, st).value;
    ProcReads(l, Nil, cx, st, left, ns);
    var start := State(EmptyFreeMap, left.st.supply);
    var right := NormProc(q, Nil, cx.Push(), start).value;
    PatternReads(q, cx, left.st.supply, right, ns);
  }

  /** A pattern in a scope of its own, read by the names it binds. */
  lemma {:induction false} PatternReads(q: Proc, cx: Context, supply: nat, right: Out, ns: Names)
    requires Follows(cx, ns) && NormProc(q, Nil, cx.Push(), State(EmptyFreeMap, supply)) == Ok(right)
    ensures right.st.free.Valid() && Reads(q, ns.InPattern(LevelNames(right.st.free)), Nil, right.par)
    ensures |LevelNames(right.st.free)| == right.st.free.nextLevel
    decreases WProc(q), 10
  {
    hide NormProc, Reads, FreeMap.Valid, BoundMap.Valid, Follows, Listed, Extends, LevelNames;
    PushReady(cx, supply);
    ProcGrown(q, Nil, cx.Push(), State(EmptyFreeMap, supply), right);
    var fs := LevelNames(right.st.free);
    LevelNamesList(right.st.free);
    PushFollows(cx, ns, fs);
    ProcReads(q, Nil, cx.Push(), State(EmptyFreeMap, supply), right, ns.InPattern(fs));
  }

  /** An operand with free names of its own. */
  lemma {:induction false} OperandReads(q: Proc, cx: Context, supply: nat, right: Out, ns: Names)
    requires cx.chain[0].Valid() && Follows(cx, ns) && NormProc(q, Nil, cx, State(EmptyFreeMap, supply)) == Ok(right)
    ensures right.st.free.Valid() && Reads(q, ns.Freely(LevelNames(right.st.free)), Nil, right.par)
    decreases WProc(q), 10
  {
    hide NormProc, Reads, FreeMap.Valid, BoundMap.Valid, Listed, Extends, LevelNames, Holds;
    EmptyFreeValid();
    ProcGrown(q, Nil, cx, State(EmptyFreeMap, supply), right);
    var fs := LevelNames(right.st.free);
    LevelNamesList(right.st.free);
    assert Follows(cx, ns.Freely(fs));
    ProcReads(q, Nil, cx, State(EmptyFreeMap, supply), right, ns.Freely(fs));
  }

  lemma {:induction false} NegationReads(p: Proc, acc: Par, cx: Context, st: State, r: Out, ns: Names)
    requires Ready(cx, st) && Follows(cx, ns) && NormNegation(p, acc, cx, st) == Ok(r) && Listed(r.st.free, ns.free)
    ensures Extends(st.free, r.st.free) && ReadsNegation(p, ns, acc, r.par)
    decreases 1 + WProc(p), 0
  {
    hide WProc, NormProc, Reads, FreeMap.Valid, BoundMap.Valid, Follows, LevelNames;
    OperandReads(p, cx, st.supply, NormProc(p, Nil, cx, State(EmptyFreeMap, st.supply)).value, ns);
  }

  lemma {:induction false} ConjunctionReads(l: Proc, q: Proc, acc: Par, cx: Context, st: State, r: Out, ns: Names)
    requires Ready(cx, st) && Follows(cx, ns) && NormConjunction(l, q, acc, cx, st) == Ok(r)
    requires Listed(r.st.free, ns.free)
    ensures Extends(st.free, r.st.free) && ReadsConjunction(l, q, ns, acc, r.par)
    decreases 1 + WProc(l) + WProc(q), 0
  {
    hide ReadsConjunction, Conjoin, PrependConnective, WProc, NormProc, Reads, FreeMap.Valid, BoundMap.Valid, Follows;
    var left := NormProc(l, Nil, cx, st).value;
    var right := NormProc(q, Nil, cx, left.st).value;
    assert Listed(right.st.free, ns.free);
    PairReads(l, q, cx, st, left, right, ns);
    ConjunctionShape(l, q, acc, left.par, right.par, ns);
  }

  lemma ConjunctionShape(l: Proc, q: Proc, acc: Par, a: Par, b: Par, ns: Names)
    requires Reads(l, ns, Nil, a) && Reads(q, ns, Nil, b)
    ensures ReadsConjunction(l, q, ns, acc, PrependConnective(acc, Conjoin(a, b)))
  {
    hide Reads;
    AndPartsOf(a, b);
    hide Conjoin, AndParts;
  }

  lemma AndPartsOf(a: Par, b: Par)
    ensures var c := Conjoin(a, b);
            c.ConnAnd? && c.ps != [] && c.ps[|c.ps| - 1] == b && AndParts(a, c.ps[..|c.ps| - 1])
  {
    hide SingleConnective;
    if SingleConnective(a).Some? && SingleConnective(a).value.ConnAnd? {
      var ps := SingleConnective(a).value.ps;
      assert Conjoin(a, b) == ConnAnd(ps + [b]) && (ps + [b])[..|ps|] == ps;
    } else {
      assert Conjoin(a, b) == ConnAnd([a, b]) && [a, b][..1] == [a];
    }
  }

  lemma OrPartsOf(a: Par, b: Par)
    ensures var c := Disjoin(a, b);
            c.ConnOr? && c.ps != [] && c.ps[|c.ps| - 1] == b && OrParts(a, c.ps[..|c.ps| - 1])
  {
    hide SingleConnective;
    if SingleConnective(a).Some? && SingleConnective(a).value.ConnOr? {
      var ps := SingleConnective(a).value.ps;
      assert Disjoin(a, b) == ConnOr(ps + [b]) && (ps + [b])[..|ps|] == ps;
    } else {
      assert Disjoin(a, b) == ConnOr([a, b]) && [a, b][..1] == [a];
    }
  }

  lemma DisjunctionShape(l: Proc, q: Proc, acc: Par, a: Par, b: Par, ns: Names, fs: seq<Bound>, gs: seq<Bound>)
    requires Reads(l, ns.Freely(fs), Nil, a) && Reads(q, ns.Freely(gs), Nil, b)
    ensures ReadsDisjunction(l, q, ns, acc, PrependConnective(acc, Disjoin(a, b)))
  {
    hide Reads;
    OrPartsOf(a, b);
    hide Disjoin, OrParts;
  }

  lemma {:induction false} DisjunctionReads(l: Proc, q: Proc, acc: Par, cx: Context, st: State, r: Out, ns: Names)
    requires Ready(cx, st) && Follows(cx, ns) && NormDisjunction(l, q, acc, cx, st) == Ok(r)
    requires Listed(r.st.free, ns.free)
    ensures Extends(st.free, r.st.free) && ReadsDisjunction(l, q, ns, acc, r.par)
    decreases 1 + WProc(l) + WProc(q), 0
  {
    hide ReadsDisjunction, PrependConnective, WProc, NormProc, Reads, FreeMap.Valid, BoundMap.Valid, Follows,
         LevelNames, Disjoin, SingleConnective;
    var left := NormProc(l, Nil, cx, State(EmptyFreeMap, st.supply)).value;
    OperandReads(l, cx, st.supply, left, ns);
    var right := NormProc(q, Nil, cx, State(EmptyFreeMap, left.st.supply)).value;
    OperandReads(q, cx, left.st.supply, right, ns);
    DisjunctionShape(l, q, acc, left.par, right.par, ns, LevelNames(left.st.free), LevelNames(right.st.free));
  }

  lemma {:induction false} ProcsRead(ps: seq<Proc>, cx: Context, st: State, r: Outs, ns: Names)
    requires Ready(cx, st) && Follows(cx, ns) && NormProcs(ps, cx, st) == Ok(r) && Listed(r.st.free, ns.free)
    ensures Extends(st.free, r.st.free) && ReadsProcs(ps, ns, r.pars)
    decreases WProcs(ps), 0
  {
    hide NormProc, Reads, FreeMap.Valid, BoundMap.Valid, Follows, Listed;
    if ps != [] {
      var first := NormProc(ps[0], Nil, cx, st).value;
      ProcGrown(ps[0], Nil, cx, st, first);
      var rest := NormProcs(ps[1..], cx, first.st).value;
      ProcsRead(ps[1..], cx, first.st, rest, ns);
      ListedBefore(first.st.free, r.st.free, ns.free);
      ProcReads(ps[0], Nil, cx, st, first, ns);
      assert r.pars[1..] == rest.pars;
    }
  }

  lemma {:induction false} ReadsAppended(ps: seq<Proc>, last: Proc, ns: Names, pars: seq<Par>, par: Par)
    requires ReadsProcs(ps, ns, pars) && Reads(last, ns, Nil, par)
    ensures ReadsProcs(ps + [last], ns, pars + [par])
    decreases |ps|
  {
    hide Reads;
    if ps == [] {
      assert ps + [last] == [last] && pars + [par] == [par];
      assert [last][1..] == [] && [par][1..] == [];
      assert ReadsProcs([], ns, []);
    } else {
      ReadsAppended(ps[1..], last, ns, pars[1..], par);
      assert (ps + [last])[1..] == ps[1..] + [last] && (pars + [par])[1..] == pars[1..] + [par];
    }
  }

  lemma {:induction false} ProcsBackwardRead(ps: seq<Proc>, cx: Context, st: State, r: Outs, ns: Names)
    requires Ready(cx, st) && Follows(cx, ns) && NormProcsBackward(ps, cx, st) == Ok(r) && Listed(r.st.free, ns.free)
    ensures Extends(st.free, r.st.free) && ReadsProcs(ps, ns, r.pars)
    decreases WProcs(ps), 0
  {
    hide NormProc, Reads, FreeMap.Valid, BoundMap.Valid, Follows, Listed;
    if ps != [] {
      var init, last := ps[..|ps| - 1], ps[|ps| - 1];
      assert ps == init + [last];
      WProcsAppend(init, last);
      var b := NormProc(last, Nil, cx, st).value;
      ProcGrown(last, Nil, cx, st, b);
      var rest := NormProcsBackward(init, cx, b.st).value;
      ProcsBackwardRead(init, cx, b.st, rest, ns);
      ListedBefore(b.st.free, r.st.free, ns.free);
      ProcReads(last, Nil, cx, st, b, ns);
      ReadsAppended(init, last, ns, rest.pars, b.par);
    }
  }

  lemma {:induction false} NamesRead(xs: seq<Name>, guarded: bool, cx: Context, st: State, r: Outs, ns: Names)
    requires Ready(cx, st) && Follows(cx, ns) && NormNames(xs, guarded, cx, st) == Ok(r) && Listed(r.st.free, ns.free)
    ensures Extends(st.free, r.st.free) && ReadsNames(xs, ns, r.pars)
    decreases WNames(xs), 0
  {
    hide NormName, ReadsName, FreeMap.Valid, BoundMap.Valid, Follows, Listed;
    if xs != [] {
      var first := NormName(xs[0], cx, st).value;
      NameGrown(xs[0], cx, st, first);
      var rest := NormNames(xs[1..], guarded, cx, first.st).value;
      NamesRead(xs[1..], guarded, cx, first.st, rest, ns);
      ListedBefore(first.st.free, r.st.free, ns.free);
      NameReads(xs[0], cx, st, first, ns);
      assert r.pars[1..] == rest.pars;
    }
  }

  lemma {:induction false} SendReads(
    n: Name, multiple: bool, data: seq<Proc>, acc: Par, cx: Context, st: State, r: Out, ns: Names)
    requires Ready(cx, st) && Follows(cx, ns) && NormSend(n, multiple, data, acc, cx, st) == Ok(r)
    requires Listed(r.st.free, ns.free)
    ensures Extends(st.free, r.st.free) && ReadsSend(n, multiple, data, ns, acc, r.par)
    decreases 1 + WName(n) + WProcs(data), 0
  {
    hide WName, WProcs, NormName, NormProcsBackward, ReadsName, ReadsProcs, FreeMap.Valid, BoundMap.Valid, Follows,
         Listed, Extends;
    var name := NormName(n, cx, st).value;
    NameGrown(n, cx, st, name);
    var ds := NormProcsBackward(data, cx, name.st).value;
    ProcsBackwardRead(data, cx, name.st, ds, ns);
    ListedBefore(name.st.free, ds.st.free, ns.free);
    NameReads(n, cx, st, name, ns);
    ExtendsThrough(st.free, name.st.free, ds.st.free);
  }

  lemma {:induction false} MethodReads(
    target: Proc, name: string, args: seq<Proc>, acc: Par, cx: Context, st: State, r: Out, ns: Names)
    requires Ready(cx, st) && Follows(cx, ns) && NormMethod(target, name, args, acc, cx, st) == Ok(r)
    requires Listed(r.st.free, ns.free)
    ensures Extends(st.free, r.st.free) && ReadsMethod(target, name, args, ns, acc, r.par)
    decreases 1 + WProc(target) + WProcs(args), 0
  {
    hide WProc, WProcs, NormProc, NormProcsBackward, Reads, ReadsProcs, FreeMap.Valid, BoundMap.Valid, Follows,
         Listed, Extends;
    var t := NormProc(target, Nil, cx, st).value;
    ProcGrown(target, Nil, cx, st, t);
    var xs := NormProcsBackward(args, cx, t.st).value;
    ProcsBackwardRead(args, cx, t.st, xs, ns);
    ListedBefore(t.st.free, xs.st.free, ns.free);
    ProcReads(target, Nil, cx, st, t, ns);
    ExtendsThrough(st.free, t.st.free, xs.st.free);
  }

  lemma {:induction false} CollectReads(c: Collection, acc: Par, cx: Context, st: State, r: Out, ns: Names)
    requires Ready(cx, st) && Follows(cx, ns) && NormCollect(c, acc, cx, st) == Ok(r) && Listed(r.st.free, ns.free)
    ensures Extends(st.free, r.st.free) && Reads(PCollect(c), ns, acc, r.par)
    decreases 1 + WCollection(c), 0
  {
    hide NormCollection, ReadsCollection, FreeMap.Valid, BoundMap.Valid, Follows, Listed, Extends;
    CollectionReads(c, cx, st, NormCollection(c, cx, st).value, ns);
  }

  lemma {:induction false} CollectionReads(c: Collection, cx: Context, st: State, r: ExprOut, ns: Names)
    requires Ready(cx, st) && Follows(cx, ns) && NormCollection(c, cx, st) == Ok(r) && Listed(r.st.free, ns.free)
    ensures Extends(st.free, r.st.free) && ReadsCollection(c, ns, r.expr)
    decreases WCollection(c), 1
  {
    hide NormProcs, NormKeyValues, NormRemainder, ReadsProcs, ReadsKeyValues, ReadsRemainder, FreeMap.Valid,
         BoundMap.Valid, Follows, Listed, Extends;
    if c.CollectTuple? {
      assert ([c.first] + c.rest)[1..] == c.rest;
      ProcsRead([c.first] + c.rest, cx, st, NormProcs([c.first] + c.rest, cx, st).value, ns);
    } else {
      var rest := NormRemainder(c.remainder, st.free).value;
      RemainderOk(Below(0), c.remainder, st.free, rest);
      var st' := st.(free := rest.free);
      if c.CollectMap? {
        KeyValuesRead(c.kvs, cx, st', NormKeyValues(c.kvs, cx, st').value, ns);
      } else {
        ProcsRead(c.ps, cx, st', NormProcs(c.ps, cx, st').value, ns);
      }
      ListedBefore(rest.free, r.st.free, ns.free);
      RemainderReads(c.remainder, st.free, rest, ns.free);
      ExtendsThrough(st.free, rest.free, r.st.free);
    }
  }

  lemma {:induction false} KeyValuesRead(kvs: seq<KeyValuePair>, cx: Context, st: State, r: KeyValueOuts, ns: Names)
    requires Ready(cx, st) && Follows(cx, ns) && NormKeyValues(kvs, cx, st) == Ok(r) && Listed(r.st.free, ns.free)
    ensures Extends(st.free, r.st.free) && ReadsKeyValues(kvs, ns, r.kvs)
    ensures r.connectiveUsed <==>
              exists i :: 0 <= i < |r.kvs| && (r.kvs[i].key.connectiveUsed || r.kvs[i].value.connectiveUsed)
    decreases WKeyValues(kvs), 0
  {
    hide NormProc, Reads, FreeMap.Valid, BoundMap.Valid, Follows, Listed;
    if kvs != [] {
      assert WKeyValues(kvs) == WKeyValue(kvs[0]) + WKeyValues(kvs[1..]);
      var k := NormProc(kvs[0].key, Nil, cx, st).value;
      ProcGrown(kvs[0].key, Nil, cx, st, k);
      var v := NormProc(kvs[0].value, Nil, cx, k.st).value;
      ProcGrown(kvs[0].value, Nil, cx, k.st, v);
      var rest := NormKeyValues(kvs[1..], cx, v.st).value;
      KeyValuesRead(kvs[1..], cx, v.st, rest, ns);
      ListedBefore(v.st.free, r.st.free, ns.free);
      PairReads(kvs[0].key, kvs[0].value, cx, st, k, v, ns);
      assert r.kvs[1..] == rest.kvs;
      AnyEntry(KeyValue(k.par, v.par), rest.kvs, r.kvs);
    }
  }

  lemma AnyEntry(kv: KeyValue, kvs: seq<KeyValue>, all: seq<KeyValue>)
    requires all == [kv] + kvs
    ensures (exists i :: 0 <= i < |all| && (all[i].key.connectiveUsed || all[i].value.connectiveUsed))
       <==> kv.key.connectiveUsed || kv.value.connectiveUsed
            || exists i :: 0 <= i < |kvs| && (kvs[i].key.connectiveUsed || kvs[i].value.connectiveUsed)
  {
    assert all[0] == kv;
    if i :| 0 <= i < |kvs| && (kvs[i].key.connectiveUsed || kvs[i].value.connectiveUsed) { assert all[i + 1] == kvs[i]; }
    if i :| 0 <= i < |all| && (all[i].key.connectiveUsed || all[i].value.connectiveUsed) {
      if i > 0 { assert all[i] == kvs[i - 1]; }
    }
  }

  // ----- binders

  /** Being sorted before is having the lower key. */
  lemma DeclBeforeIff(a: NameDecl, b: NameDecl)
    ensures DeclBefore(a, b) <==> CompareTrees(DeclKey(a), DeclKey(b)) == Less
  {
    if a.NameDeclUrn? && b.NameDeclUrn? {
      var s, t := Strip(a.uri), Strip(b.uri);
      LexLessIff(s, t, CharCode);
      StripUnquotes(a.uri);
      StripUnquotes(b.uri);
    }
  }

  lemma StripUnquotes(raw: string)
    ensures forall s :: Unquoted(raw, s) <==> s == Strip(raw)
  {
    forall s ensures Unquoted(raw, s) <==> s == Strip(raw) {
      if |raw| >= 2 {
        assert raw == [raw[0]] + raw[1..|raw| - 1] + [raw[|raw| - 1]];
        if Unquoted(raw, s) { assert s == raw[1..|raw| - 1]; }
      }
    }
  }

  lemma SortedDecls(names: seq<NameDecl>) returns (order: seq<nat>)
    ensures DeclOrder(names, order, SortDecls(names))
  {
    hide Sort, CompareTrees, DeclKey, DeclBefore;
    var scored := ScoreDecls(names);
    order := SortOrder(scored);
    var ds := SortDecls(names);
    forall i, j | 0 <= i < j < |ds| ensures DeclBefore(ds[i], ds[j]) || (order[i] < order[j] && !DeclBefore(ds[j], ds[i])) {
      DeclBeforeIff(ds[i], ds[j]);
      DeclBeforeIff(ds[j], ds[i]);
      TreeSwap(DeclKey(ds[i]), DeclKey(ds[j]));
      TreeEqualIff(DeclKey(ds[i]), DeclKey(ds[j]));
      assert Sort(scored)[i] == scored[order[i]] && Sort(scored)[j] == scored[order[j]];
    }
  }

  lemma {:induction false} UrisRead(ds: seq<NameDecl>)
    requires forall i, j :: 0 <= i < j < |ds| && ds[i].NameDeclUrn? ==> ds[j].NameDeclUrn?
    ensures ReadsUris(ds, DeclUris(ds))
  {
    hide Unquoted, ReadsUris, Strip;
    if ds == [] {
      NoUris();
    } else {
      UrisRead(ds[1..]);
      if ds[0].NameDeclUrn? {
        StripUnquotes(ds[0].uri);
        UriFirst(ds, DeclUris(ds[1..]), Strip(ds[0].uri));
      } else {
        assert DeclUris(ds) == DeclUris(ds[1..]);
        NoUriFirst(ds, DeclUris(ds[1..]));
      }
    }
  }

  lemma NoUris()
    ensures ReadsUris([], [])
  {
  }

  lemma UriFirst(ds: seq<NameDecl>, uris: seq<string>, uri: string)
    requires ds != [] && (forall i :: 0 <= i < |ds| ==> ds[i].NameDeclUrn?)
    requires ReadsUris(ds[1..], uris) && Unquoted(ds[0].uri, uri)
    ensures ReadsUris(ds, [uri] + uris)
  {
    hide Unquoted;
    var rest := ds[1..];
    if |rest| > 0 { assert rest[0] == ds[1] && rest[0].NameDeclUrn?; }
    assert |uris| == |rest|;
    var all := [uri] + uris;
    assert |ds| - |all| == 0;
    forall i | 0 <= i < |all| ensures Unquoted(ds[i].uri, all[i]) {
      if i > 0 {
        assert ds[i] == rest[i - 1] && all[i] == uris[i - 1];
        assert Unquoted(rest[|rest| - |uris| + (i - 1)].uri, uris[i - 1]);
      }
    }
  }

  lemma NoUriFirst(ds: seq<NameDecl>, uris: seq<string>)
    requires ds != [] && ds[0].NameDeclSimpl? && ReadsUris(ds[1..], uris)
    ensures ReadsUris(ds, uris)
  {
    hide Unquoted;
    forall i | 0 <= i < |ds| ensures ds[i].NameDeclUrn? <==> i >= |ds| - |uris| {
      if i > 0 { assert ds[i] == ds[1..][i - 1]; }
    }
    forall i | 0 <= i < |uris| ensures Unquoted(ds[|ds| - |uris| + i].uri, uris[i]) {
      assert ds[|ds| - |uris| + i] == ds[1..][|ds| - 1 - |uris| + i];
    }
  }

  lemma UrnsLast(names: seq<NameDecl>, order: seq<nat>, ds: seq<NameDecl>)
    requires DeclOrder(names, order, ds)
    ensures |ds| == |names|
    ensures forall i, j :: 0 <= i < j < |ds| && ds[i].NameDeclUrn? ==> ds[j].NameDeclUrn?
  {
  }

  lemma {:induction false} NewReads(names: seq<NameDecl>, body: Proc, acc: Par, cx: Context, st: State, r: Out, ns: Names)
    requires Ready(cx, st) && Follows(cx, ns) && NormNew(names, body, acc, cx, st) == Ok(r)
    requires Listed(r.st.free, ns.free)
    ensures Extends(st.free, r.st.free) && ReadsNew(names, body, ns, acc, r.par)
    decreases 1 + WProc(body), 0
  {
    assert cx.env == ns.env;
    hide ReadsNew, PrependNew, WProc, NormProc, Reads, SortDecls, BoundMap.PutAll, FreeMap.Valid, Follows, Listed,
         Extends, ReadsUris, DeclOrder, DeclUris;
    var ds := SortDecls(names);
    var order := SortedDecls(names);
    UrnsLast(names, order, ds);
    UrisRead(ds);
    assert AllNames(DeclNames(ds)) == DeclaredNames(ds);
    PutAllValid(cx.chain[0], DeclNames(ds), NameSort);
    PutFollows(cx, ns, DeclNames(ds));
    var b := NormProc(body, Nil, cx.PutAll(DeclNames(ds)), st).value;
    ProcReads(body, Nil, cx.PutAll(DeclNames(ds)), st, b, ns.Under(DeclaredNames(ds)));
    NewShape(names, body, acc, b.par, ds, order, DeclUris(ds), ns);
  }

  lemma NewShape(
    names: seq<NameDecl>, body: Proc, acc: Par, b: Par, ds: seq<NameDecl>, order: seq<nat>, uris: seq<string>, ns: Names)
    requires DeclOrder(names, order, ds) && ReadsUris(ds, uris) && Reads(body, ns.Under(DeclaredNames(ds)), Nil, b)
    ensures ReadsNew(names, body, ns, acc, PrependNew(acc, New(|names|, b, uris, ns.env)))
  {
    hide Reads, DeclOrder, ReadsUris;
    var par := PrependNew(acc, New(|names|, b, uris, ns.env));
    assert par.news[0] == New(|names|, b, uris, ns.env);
  }

  lemma {:induction false} BundleReads(kind: BundleKind, body: Proc, acc: Par, cx: Context, st: State, r: Out, ns: Names)
    requires Ready(cx, st) && Follows(cx, ns) && NormBundle(kind, body, acc, cx, st) == Ok(r)
    requires Listed(r.st.free, ns.free)
    ensures Extends(st.free, r.st.free) && ReadsBundle(kind, body, ns, acc, r.par)
    decreases 1 + WProc(body), 0
  {
    hide WProc, NormProc, Reads, FreeMap.Valid, BoundMap.Valid, Follows, SingleBundle;
    var b := NormProc(body, Nil, cx, st).value;
    assert Listed(b.st.free, ns.free);
    ProcReads(body, Nil, cx, st, b, ns);
  }

  lemma {:induction false} IfReads(
    cond: Proc, body: Proc, otherwise: Proc, acc: Par, cx: Context, st: State, r: Out, ns: Names)
    requires Ready(cx, st) && Follows(cx, ns) && NormIf(cond, body, otherwise, acc, cx, st) == Ok(r)
    requires Listed(r.st.free, ns.free)
    ensures Extends(st.free, r.st.free) && ReadsIf(cond, body, otherwise, ns, acc, r.par)
    decreases WProc(cond) + WProc(body) + WProc(otherwise) + 1, 0
  {
    hide WProc, NormProc, Reads, ReadsIf, FreeMap.Valid, BoundMap.Valid, Follows, Listed, Extends, FromExpr,
         PrependMatch;
    var target := NormProc(cond, acc, cx, st).value;
    ProcGrown(cond, acc, cx, st, target);
    var t := NormProc(body, Nil, cx, target.st).value;
    var f := NormProc(otherwise, Nil, cx, t.st).value;
    PairReads(body, otherwise, cx, target.st, t, f, ns);
    ListedBefore(target.st.free, f.st.free, ns.free);
    ProcReads(cond, acc, cx, st, target, ns);
    ExtendsThrough(st.free, target.st.free, f.st.free);
    IfShape(cond, body, otherwise, acc, target.par, t.par, f.par, ns);
  }

  lemma IfShape(cond: Proc, body: Proc, otherwise: Proc, acc: Par, target: Par, t: Par, f: Par, ns: Names)
    requires Reads(cond, ns, acc, target) && Reads(body, ns, Nil, t) && Reads(otherwise, ns, Nil, f)
    ensures var cases := [MatchCase(FromExpr(GBool(true)), t, 0), MatchCase(FromExpr(GBool(false)), f, 0)];
            ReadsIf(cond, body, otherwise, ns, acc, PrependMatch(acc, Match(
              target, cases, target.connectiveUsed || t.connectiveUsed || f.connectiveUsed)))
  {
    hide Reads, FromExpr;
  }

  lemma {:induction false} MatchReads(target: Proc, cases: seq<Case>, acc: Par, cx: Context, st: State, r: Out, ns: Names)
    requires Ready(cx, st) && Follows(cx, ns) && NormMatch(target, cases, acc, cx, st) == Ok(r)
    requires Listed(r.st.free, ns.free)
    ensures Extends(st.free, r.st.free) && ReadsMatch(target, cases, ns, acc, r.par)
    decreases 1 + WProc(target) + WCases(cases), 0
  {
    hide WProc, WCases, NormProc, NormCases, Reads, ReadsCases, FreeMap.Valid, BoundMap.Valid, Follows, Listed,
         Extends;
    var t := NormProc(target, Nil, cx, st).value;
    ProcGrown(target, Nil, cx, st, t);
    var cs := NormCases(cases, cx, t.st).value;
    CasesRead(cases, cx, t.st, cs, ns);
    ListedBefore(t.st.free, cs.st.free, ns.free);
    ProcReads(target, Nil, cx, st, t, ns);
    ExtendsThrough(st.free, t.st.free, cs.st.free);
  }

  lemma {:induction false} CasesRead(cases: seq<Case>, cx: Context, st: State, r: CaseOuts, ns: Names)
    requires Ready(cx, st) && Follows(cx, ns) && NormCases(cases, cx, st) == Ok(r) && Listed(r.st.free, ns.free)
    ensures Extends(st.free, r.st.free) && ReadsCases(cases, ns, r.cases)
    ensures r.connectiveUsed <==> exists i :: 0 <= i < |r.cases| && r.cases[i].source.connectiveUsed
    decreases WCases(cases), 0
  {
    hide NormProc, Reads, FreeMap.Valid, BoundMap.Valid, Follows, Listed, LevelNames;
    if cases != [] {
      assert WCases(cases) == WCase(cases[0]) + WCases(cases[1..]);
      var pat := NormProc(cases[0].pattern, Nil, cx.Push(), State(EmptyFreeMap, st.supply)).value;
      PatternReads(cases[0].pattern, cx, st.supply, pat, ns);
      var fm, st' := pat.st.free, State(st.free, pat.st.supply);
      AbsorbReady(cx, fm, st');
      AbsorbFollows(cx, ns, fm);
      var body := NormProc(cases[0].body, Nil, cx.AbsorbFree(fm), st').value;
      ProcGrown(cases[0].body, Nil, cx.AbsorbFree(fm), st', body);
      var rest := NormCases(cases[1..], cx, body.st).value;
      CasesRead(cases[1..], cx, body.st, rest, ns);
      ListedBefore(body.st.free, r.st.free, ns.free);
      ProcReads(cases[0].body, Nil, cx.AbsorbFree(fm), st', body, ns.Under(LevelNames(fm)));
      var first := MatchCase(pat.par, body.par, fm.nextLevel);
      assert r.cases == [first] + rest.cases && r.cases[1..] == rest.cases;
      AnySource(first, rest.cases, r.cases);
    }
  }

  lemma AnySource(c: MatchCase, cs: seq<MatchCase>, all: seq<MatchCase>)
    requires all == [c] + cs
    ensures (exists i :: 0 <= i < |all| && all[i].source.connectiveUsed)
       <==> c.source.connectiveUsed || exists i :: 0 <= i < |cs| && cs[i].source.connectiveUsed
  {
    assert all[0] == c;
    if i :| 0 <= i < |cs| && cs[i].source.connectiveUsed { assert all[i + 1] == cs[i]; }
    if i :| 0 <= i < |all| && all[i].source.connectiveUsed { if i > 0 { assert all[i] == cs[i - 1]; } }
  }

  /** The names of a bind's patterns and remainder, and how the bind reads by them. */
  lemma {:induction false} BoundPatternsRead(
    xs: seq<Name>, m: Remainder, cx: Context, supply: nat, ps: Outs, rest: Rest, source: Par, ns: Names)
    requires Follows(cx, ns) && NormNames(xs, cx.Depth() == 0, cx.Push(), State(EmptyFreeMap, supply)) == Ok(ps)
    requires NormRemainder(m, ps.st.free) == Ok(rest)
    ensures rest.free.Valid() && |LevelNames(rest.free)| == rest.free.nextLevel
    ensures ReadsPatterns(xs, m, LevelNames(rest.free), ns, ReceiveBind(ps.pars, source, rest.v, rest.free.nextLevel))
    decreases WNames(xs), 1
  {
    hide NormNames, NormRemainder, ReadsNames, ReadsRemainder, FreeMap.Valid, BoundMap.Valid, Follows, Listed,
         Extends, LevelNames;
    PushReady(cx, supply);
    var start := State(EmptyFreeMap, supply);
    NamesOk(Below(0), xs, cx.Depth() == 0, cx.Push(), start, ps);
    RemainderOk(Below(0), m, ps.st.free, rest);
    var fs := LevelNames(rest.free);
    LevelNamesList(rest.free);
    RemainderReads(m, ps.st.free, rest, fs);
    ListedBefore(ps.st.free, rest.free, fs);
    PushFollows(cx, ns, fs);
    NamesRead(xs, cx.Depth() == 0, cx.Push(), start, ps, ns.InPattern(fs));
  }

  lemma {:induction false} ContrReads(
    n: Name, formals: seq<Name>, remainder: Remainder, body: Proc, acc: Par, cx: Context, st: State, r: Out, ns: Names)
    requires Ready(cx, st) && Follows(cx, ns) && NormContr(n, formals, remainder, body, acc, cx, st) == Ok(r)
    requires Listed(r.st.free, ns.free)
    ensures Extends(st.free, r.st.free) && ReadsContr(n, formals, remainder, body, ns, acc, r.par)
    decreases WName(n) + WNames(formals) + WProc(body) + 1, 0
  {
    hide ReadsContr, ContractReads, WProc, WNames, NormName, NormNames, FinishContr, NormRemainder, Reads, ReadsName,
         ReadsPatterns, FreeMap.Valid, BoundMap.Valid, Follows, Listed, Extends, LevelNames, MoreReceive;
    var name := NormName(n, cx, st).value;
    NameGrown(n, cx, st, name);
    var fs := NormNames(formals, cx.Depth() == 0, cx.Push(), State(EmptyFreeMap, name.st.supply)).value;
    var names := FinishContrReads(name, fs, remainder, body, acc, cx, r, ns, formals);
    ListedBefore(name.st.free, r.st.free, ns.free);
    NameReads(n, cx, st, name, ns);
    ExtendsThrough(st.free, name.st.free, r.st.free);
    ContrShape(n, formals, remainder, body, acc, r.par, names, ns);
  }

  lemma ContrShape(
    n: Name, formals: seq<Name>, remainder: Remainder, body: Proc, acc: Par, par: Par, names: seq<Bound>, ns: Names)
    requires MoreReceive(acc, par) && |par.receives[0].binds| == 1 && ReadsName(n, ns, par.receives[0].binds[0].source)
    requires ContractReads(formals, remainder, body, par.receives[0], names, ns)
    ensures ReadsContr(n, formals, remainder, body, ns, acc, par)
  {
    hide Reads, ReadsName, ReadsPatterns, MoreReceive;
  }

  ghost predicate ContractReads(
    formals: seq<Name>, remainder: Remainder, body: Proc, rc: Receive, names: seq<Bound>, ns: Names)
    requires |rc.binds| == 1
  {
    && rc.persistent && !rc.peek && rc.connectiveUsed == (rc.binds[0].source.connectiveUsed || rc.body.connectiveUsed)
    && ReadsPatterns(formals, remainder, names, ns, rc.binds[0]) && rc.bindCount == |names|
    && Reads(body, ns.Under(names), Nil, rc.body)
  }

  lemma {:induction false} FinishContrReads(
    name: Out, fs: Outs, remainder: Remainder, body: Proc, acc: Par, cx: Context, r: Out, ns: Names, formals: seq<Name>)
    returns (names: seq<Bound>)
    requires Ready(cx, name.st) && Follows(cx, ns) && Listed(r.st.free, ns.free)
    requires NormNames(formals, cx.Depth() == 0, cx.Push(), State(EmptyFreeMap, name.st.supply)) == Ok(fs)
    requires FinishContr(name, fs, remainder, body, acc, cx) == Ok(r)
    ensures Extends(name.st.free, r.st.free) && MoreReceive(acc, r.par)
    ensures var rc := r.par.receives[0];
            |rc.binds| == 1 && rc.binds[0].source == name.par && ContractReads(formals, remainder, body, rc, names, ns)
    decreases WNames(formals) + WProc(body), 11
  {
    hide WProc, WNames, NormNames, NormProc, NormRemainder, Reads, ReadsPatterns, FreeMap.Valid, BoundMap.Valid,
         Follows, Listed, Extends, LevelNames;
    var rest := NormRemainder(remainder, fs.st.free).value;
    BoundPatternsRead(formals, remainder, cx, name.st.supply, fs, rest, name.par, ns);
    names := LevelNames(rest.free);
    var st' := State(name.st.free, fs.st.supply);
    AbsorbReady(cx, rest.free, st');
    AbsorbFollows(cx, ns, rest.free);
    var b := NormProc(body, Nil, cx.AbsorbFree(rest.free), st').value;
    ProcReads(body, Nil, cx.AbsorbFree(rest.free), st', b, ns.Under(names));
  }

  // ----- joins

  lemma {:induction false} SourcesRead(bs: seq<NameBind>, cx: Context, st: State, r: Outs, ns: Names)
    requires Ready(cx, st) && Follows(cx, ns) && NormSources(bs, cx, st) == Ok(r) && Listed(r.st.free, ns.free)
    ensures Extends(st.free, r.st.free) && Grown(st, r.st)
    ensures forall i :: 0 <= i < |bs| ==> ReadsName(bs[i].source, ns, r.pars[i])
    decreases WBinds(bs), 0
  {
    hide NormName, ReadsName, FreeMap.Valid, BoundMap.Valid, Follows, Listed;
    if bs != [] {
      assert WBinds(bs) == WBind(bs[0]) + WBinds(bs[1..]);
      var first := NormName(bs[0].source, cx, st).value;
      NameGrown(bs[0].source, cx, st, first);
      var rest := NormSources(bs[1..], cx, first.st).value;
      SourcesRead(bs[1..], cx, first.st, rest, ns);
      ListedBefore(first.st.free, r.st.free, ns.free);
      NameReads(bs[0].source, cx, st, first, ns);
      assert r.pars == [first.par] + rest.pars;
    }
  }

  /** How the binds of a join read before they are sorted. */
  ghost function Readings(binds: seq<(ReceiveBind, FreeMap)>): seq<BindReading>
    requires MapsValid(binds)
  {
    seq(|binds|, i requires 0 <= i < |binds| => BindReading(LevelNames(binds[i].1), binds[i].0))
  }

  lemma {:induction false} BindsRead(
    bs: seq<NameBind>, sources: seq<Par>, cx: Context, supply: nat, r: BindOuts, ns: Names)
    requires |sources| == |bs| && NormBinds(bs, sources, cx, supply) == Ok(r) && Follows(cx, ns)
    requires forall i :: 0 <= i < |bs| ==> ReadsName(bs[i].source, ns, sources[i])
    ensures MapsValid(r.binds) && |r.binds| == |bs| && ReadsBinds(bs, ns, Readings(r.binds))
    ensures forall i :: 0 <= i < |bs| ==> r.binds[i].0.source == sources[i]
    decreases WBinds(bs), 0
  {
    hide NormNames, NormRemainder, ReadsName, ReadsPatterns, FreeMap.Valid, Follows, LevelNames;
    if bs != [] {
      assert WBinds(bs) == WBind(bs[0]) + WBinds(bs[1..]);
      var ps := NormNames(bs[0].names, cx.Depth() == 0, cx.Push(), State(EmptyFreeMap, supply)).value;
      var m := NormRemainder(bs[0].remainder, ps.st.free).value;
      BoundPatternsRead(bs[0].names, bs[0].remainder, cx, supply, ps, m, sources[0], ns);
      var rest := NormBinds(bs[1..], sources[1..], cx, ps.st.supply).value;
      BindsRead(bs[1..], sources[1..], cx, ps.st.supply, rest, ns);
      var first := (ReceiveBind(ps.pars, sources[0], m.v, m.free.nextLevel), m.free);
      assert r.binds == [first] + rest.binds;
      assert Readings(r.binds)[1..] == Readings(rest.binds);
    }
  }

  /** A stable sort puts the elements in the order of their scores, equal scores in the order of their indices. */
  ghost predicate StableOrder<T>(xs: seq<Scored<T>>, order: seq<nat>) {
    && Permutes(order, |xs|) && |Sort(xs)| == |xs|
    && (forall i :: 0 <= i < |xs| ==> Sort(xs)[i] == xs[order[i]])
    && (forall i, j :: 0 <= i < j < |xs| ==>
          AtMost(Sort(xs)[i].score, Sort(xs)[j].score) && (Sort(xs)[i].score == Sort(xs)[j].score ==> order[i] < order[j]))
  }

  lemma {:induction false} SortOrder<T>(xs: seq<Scored<T>>) returns (order: seq<nat>)
    ensures StableOrder(xs, order)
  {
    order := [];
    if xs != [] {
      var below := SortOrder(xs[1..]);
      var at := InsertPlace(xs[0], Sort(xs[1..]));
      SortSorted(xs);
      order := Shifted(below, at);
      hide StableOrder;
      SortOrderStep(xs, below, at, Sort(xs[1..]));
    }
  }

  /** The index 0 inserted at `at`, the others moved up. */
  function Shifted(below: seq<nat>, at: nat): (r: seq<nat>)
    requires at <= |below|
  {
    seq(|below| + 1, i requires 0 <= i < |below| + 1 => if i == at then 0 else 1 + below[if i < at then i else i - 1])
  }

  lemma SortOrderStep<T>(xs: seq<Scored<T>>, below: seq<nat>, at: nat, sorted: seq<Scored<T>>)
    requires xs != [] && sorted == Sort(xs[1..]) && StableOrder(xs[1..], below) && at <= |sorted|
    requires Sort(xs) == sorted[..at] + [xs[0]] + sorted[at..] && IsSorted(Sort(xs))
    requires forall k :: 0 <= k < at ==> !AtMost(xs[0].score, sorted[k].score)
    ensures StableOrder(xs, Shifted(below, at))
  {
    hide Sort, AtMost, Shifted;
    var order := Shifted(below, at);
    ShiftedPermutes(below, at);
    forall i | 0 <= i < |xs| ensures Sort(xs)[i] == xs[order[i]] { ShiftedElement(xs, below, at, sorted, i); }
    hide Permutes;
    forall i, j | 0 <= i < j < |xs| && Sort(xs)[i].score == Sort(xs)[j].score ensures order[i] < order[j] {
      SameScoreOrder(xs[0], below, at, sorted, xs[1..], i, j);
    }
  }

  lemma ShiftedElement<T>(xs: seq<Scored<T>>, below: seq<nat>, at: nat, sorted: seq<Scored<T>>, i: nat)
    requires xs != [] && |sorted| == |below| == |xs| - 1 && at <= |sorted| && i < |xs|
    requires forall k :: 0 <= k < |below| ==> below[k] < |xs| - 1 && sorted[k] == xs[1..][below[k]]
    ensures (sorted[..at] + [xs[0]] + sorted[at..])[i] == xs[Shifted(below, at)[i]]
  {
    if i != at {
      var k := if i < at then i else i - 1;
      assert (sorted[..at] + [xs[0]] + sorted[at..])[i] == sorted[k] == xs[1..][below[k]];
    }
  }

  lemma ShiftedPermutes(below: seq<nat>, at: nat)
    requires Permutes(below, |below|) && at <= |below|
    ensures |Shifted(below, at)| == |below| + 1 && Permutes(Shifted(below, at), |below| + 1)
  {
    OrderShifted(below, at, Shifted(below, at));
  }

  lemma SameScoreOrder<T>(
    x: Scored<T>, below: seq<nat>, at: nat, sorted: seq<Scored<T>>, xs: seq<Scored<T>>, i: nat, j: nat)
    requires sorted == Sort(xs) && StableOrder(xs, below) && at <= |sorted|
    requires forall k :: 0 <= k < at ==> !AtMost(x.score, sorted[k].score)
    requires i < j <= |sorted|
    requires var all := sorted[..at] + [x] + sorted[at..]; all[i].score == all[j].score
    ensures Shifted(below, at)[i] < Shifted(below, at)[j]
  {
    hide Sort, AtMost;
    TreeReflexive(x.score);
    var i', j' := if i < at then i else i - 1, if j < at then j else j - 1;
    var all, order := sorted[..at] + [x] + sorted[at..], Shifted(below, at);
    assert all[at] == x && order[at] == 0;
    assert i != at ==> all[i] == sorted[i'] && order[i] == 1 + below[i'];
    assert j != at ==> all[j] == sorted[j'] && order[j] == 1 + below[j'];
  }

  lemma OrderShifted(below: seq<nat>, at: nat, order: seq<nat>)
    requires Permutes(below, |below|) && at <= |below| && |order| == |below| + 1
    requires order[at] == 0 && (forall i :: 0 <= i < at ==> order[i] == below[i] + 1)
    requires forall i :: at < i < |order| ==> order[i] == below[i - 1] + 1
    ensures Permutes(order, |order|)
  {
  }

  lemma {:induction false} InsertPlace<T>(x: Scored<T>, xs: seq<Scored<T>>) returns (at: nat)
    ensures at <= |xs| && Insert(x, xs) == xs[..at] + [x] + xs[at..]
    ensures forall k :: 0 <= k < at ==> !AtMost(x.score, xs[k].score)
  {
    if xs == [] || AtMost(x.score, xs[0].score) {
      at := 0;
      assert Insert(x, xs) == [x] + xs;
    } else {
      var k := InsertPlace(x, xs[1..]);
      at := k + 1;
      assert xs == [xs[0]] + xs[1..];
      assert xs[..at] == [xs[0]] + xs[1..][..k] && xs[at..] == xs[1..][k..];
      forall m | 0 <= m < at ensures !AtMost(x.score, xs[m].score) {
        if m > 0 { assert xs[m] == xs[1..][m - 1]; }
      }
    }
  }

  /** The merged free map lists the names of its parts one after the other. */
  lemma {:induction false} MergedNames(acc: FreeMap, fms: seq<FreeMap>, r: FreeMap, names: seq<Bound>, more: seq<seq<Bound>>)
    requires acc.Valid() && Leveled(acc, names) && |more| == |fms|
    requires forall i :: 0 <= i < |fms| ==> fms[i].Valid() && Leveled(fms[i], more[i])
    requires MergeFreeMaps(acc, fms) == Ok(r)
    ensures r.Valid() && Leveled(r, names + Concat(more))
    decreases |fms|
  {
    hide FreeMap.Valid, Leveled;
    if fms == [] {
      assert names + Concat(more) == names;
    } else {
      FreeMergeValid(acc, fms[0]);
      MergeLeveled(acc, fms[0], names, more[0]);
      MergedNames(acc.Merge(fms[0]), fms[1..], r, names + more[0], more[1..]);
      assert names + more[0] + Concat(more[1..]) == names + Concat(more);
    }
  }

  lemma MergeLeveled(a: FreeMap, b: FreeMap, xs: seq<Bound>, ys: seq<Bound>)
    requires Leveled(a, xs) && Leveled(b, ys) && !a.Shadows(b)
    ensures Leveled(a.Merge(b), xs + ys)
  {
    var r, all := a.Merge(b), xs + ys;
    forall l | 0 <= l < |all| ensures all[l].x in r.bindings && r.bindings[all[l].x].level == l {
      if l < |xs| { assert all[l] == xs[l] && xs[l].x !in b.bindings; } else { assert all[l] == ys[l - |xs|]; }
    }
    forall x | x in r.bindings
      ensures 0 <= r.bindings[x].level < |all| && all[r.bindings[x].level] == Bound(x, r.bindings[x].typ)
    {
      if x in b.bindings { assert all[|xs| + b.bindings[x].level] == Bound(x, b.bindings[x].typ); }
    }
  }

  lemma LeveledUnique(fm: FreeMap, xs: seq<Bound>)
    requires fm.Valid() && Leveled(fm, xs)
    ensures LevelNames(fm) == xs
  {
    hide LevelNames, FreeMap.Valid;
    LevelNamesList(fm);
    var ys := LevelNames(fm);
    forall l | 0 <= l < |xs| ensures ys[l] == xs[l] {
      assert fm.bindings[ys[l].x].level == l;
    }
  }

  lemma EmptyLeveled()
    ensures EmptyFreeMap.Valid() && Leveled(EmptyFreeMap, [])
  {
  }

  /** A join's binds as the normalizer sorts them, and the names it binds. */
  lemma JoinReads(binds: seq<(ReceiveBind, FreeMap)>, fm: FreeMap) returns (order: seq<nat>)
    requires MapsValid(binds) && MergeFreeMaps(EmptyFreeMap, FreeMapsOf(SortBindsWith(binds))) == Ok(fm)
    ensures JoinOrder(Readings(binds), order, BindsOf(SortBindsWith(binds)))
    ensures fm.Valid() && LevelNames(fm) == BoundNames(Readings(binds), order)
  {
    hide Sort, AtMost, SortReceiveBind, FreeMap.Valid, LevelNames, MergeFreeMaps, Leveled, Concat;
    var scored, rs, sorted := ScoreBindsWith(binds), Readings(binds), SortBindsWith(binds);
    order := SortOrder(scored);
    forall i | 0 <= i < |rs| ensures sorted[i] == (SortReceiveBind(rs[order[i]].raw).term, binds[order[i]].1) {
      assert Sort(scored)[i] == scored[order[i]];
    }
    var fms, more := FreeMapsOf(sorted), seq(|order|, i requires 0 <= i < |order| => rs[order[i]].names);
    forall i | 0 <= i < |fms| ensures fms[i].Valid() && Leveled(fms[i], more[i]) {
      assert fms[i] == binds[order[i]].1;
      LevelNamesList(fms[i]);
    }
    EmptyLeveled();
    MergedNames(EmptyFreeMap, fms, fm, [], more);
    assert [] + Concat(more) == BoundNames(rs, order);
    LeveledUnique(fm, BoundNames(rs, order));
  }

  lemma {:induction false} FinishReceiveReads(
    sources: Outs, binds: BindOuts, persistent: bool, peek: bool, body: Proc, acc: Par, cx: Context, r: Out, ns: Names)
    returns (order: seq<nat>)
    requires Ready(cx, sources.st) && Follows(cx, ns) && MapsValid(binds.binds)
    requires FinishReceive(sources, binds, persistent, peek, body, acc, cx) == Ok(r) && Listed(r.st.free, ns.free)
    ensures Extends(sources.st.free, r.st.free) && MoreReceive(acc, r.par)
    ensures var rc, rs := r.par.receives[0], Readings(binds.binds);
            && rc.persistent == persistent && rc.peek == peek && !RepeatedChannel(rc.binds)
            && JoinOrder(rs, order, rc.binds) && rc.bindCount == |BoundNames(rs, order)|
            && Reads(body, ns.Under(BoundNames(rs, order)), Nil, rc.body)
            && rc.connectiveUsed == (AnyConnectiveUsed(sources.pars) || rc.body.connectiveUsed)
    decreases WProc(body), 10
  {
    hide WProc, NormProc, Reads, SortBindsWith, MergeFreeMaps, RepeatedChannel, FreeMap.Valid, BoundMap.Valid,
         Follows, Listed, Extends, JoinOrder, LevelNames, MapsValid, Readings, BoundNames;
    var sorted := SortBindsWith(binds.binds);
    var fm := MergeFreeMaps(EmptyFreeMap, FreeMapsOf(sorted)).value;
    order := JoinReads(binds.binds, fm);
    LevelNamesList(fm);
    var st' := State(sources.st.free, binds.supply);
    AbsorbReady(cx, fm, st');
    AbsorbFollows(cx, ns, fm);
    var b := NormProc(body, Nil, cx.AbsorbFree(fm), st').value;
    ProcReads(body, Nil, cx.AbsorbFree(fm), st', b, ns.Under(LevelNames(fm)));
    assert JoinOrder(Readings(binds.binds), order, BindsOf(sorted));
  }

  lemma {:induction false} ReceiveReads(
    bs: seq<NameBind>, persistent: bool, peek: bool, body: Proc, acc: Par, cx: Context, st: State, r: Out, ns: Names)
    requires Ready(cx, st) && Follows(cx, ns) && NormReceive(bs, persistent, peek, body, acc, cx, st) == Ok(r)
    requires Listed(r.st.free, ns.free)
    ensures Extends(st.free, r.st.free) && ReadsReceive(bs, persistent, peek, body, ns, acc, r.par)
    decreases 1 + WBinds(bs) + WProc(body), 4
  {
    hide ReadsReceive, RepeatedChannel, WProc, WBinds, NormSources, NormBinds, FinishReceive, Reads, ReadsBinds,
         ReadsName, FreeMap.Valid, BoundMap.Valid, Follows, Listed, Extends, MapsValid, Readings, JoinOrder,
         BoundNames;
    var sources := NormSources(bs, cx, st).value;
    SourcesOk(Below(0), bs, cx, st, sources);
    var binds := NormBinds(bs, sources.pars, cx, sources.st.supply).value;
    BindsOk(Below(0), bs, sources.pars, cx, sources.st.supply, binds);
    var order := FinishReceiveReads(sources, binds, persistent, peek, body, acc, cx, r, ns);
    ListedBefore(sources.st.free, r.st.free, ns.free);
    SourcesRead(bs, cx, st, sources, ns);
    BindsRead(bs, sources.pars, cx, sources.st.supply, binds, ns);
    AnySourceRead(binds.binds, sources.pars);
    ExtendsThrough(st.free, sources.st.free, r.st.free);
    ReceiveShape(bs, persistent, peek, body, acc, r.par, Readings(binds.binds), order, ns);
  }

  lemma ReceiveShape(
    bs: seq<NameBind>, persistent: bool, peek: bool, body: Proc, acc: Par, par: Par, rs: seq<BindReading>,
    order: seq<nat>, ns: Names)
    requires MoreReceive(acc, par) && ReadsBinds(bs, ns, rs) && JoinOrder(rs, order, par.receives[0].binds)
    requires var rc := par.receives[0];
             && rc.persistent == persistent && rc.peek == peek && !RepeatedChannel(rc.binds)
             && rc.bindCount == |BoundNames(rs, order)| && Reads(body, ns.Under(BoundNames(rs, order)), Nil, rc.body)
             && (rc.connectiveUsed <==>
                   rc.body.connectiveUsed || exists i :: 0 <= i < |rs| && rs[i].raw.source.connectiveUsed)
    ensures ReadsReceive(bs, persistent, peek, body, ns, acc, par)
  {
    hide Reads, ReadsBinds, JoinOrder, BoundNames, MoreReceive;
  }

  lemma AnySourceRead(binds: seq<(ReceiveBind, FreeMap)>, sources: seq<Par>)
    requires MapsValid(binds) && |binds| == |sources| && forall i :: 0 <= i < |binds| ==> binds[i].0.source == sources[i]
    ensures AnyConnectiveUsed(sources) <==>
              exists i :: 0 <= i < |Readings(binds)| && Readings(binds)[i].raw.source.connectiveUsed
  {
    hide FreeMap.Valid, LevelNames;
    var rs := Readings(binds);
    if i :| 0 <= i < |sources| && sources[i].connectiveUsed { assert rs[i].raw.source == sources[i]; }
  }

  // ----- the forms that stand for others

  lemma {:induction false} SendSynchReads(
    n: Name, data: seq<Proc>, cont: SynchSendCont, acc: Par, cx: Context, st: State, r: Out, ns: Names)
    requires Ready(cx, st) && Follows(cx, ns) && NormSendSynch(n, data, cont, acc, cx, st) == Ok(r)
    requires Listed(r.st.free, ns.free)
    ensures Extends(st.free, r.st.free) && ReadsSendSynch(n, data, cont, ns, acc, r.par)
    decreases WProc(PSendSynch(n, data, cont)), 0
  {
    hide NormProc, Reads, FreeMap.Valid, BoundMap.Valid, Follows, Listed, Extends, DesugarSendSynch;
    var x := Fresh(st.supply);
    SendSynchWeight(n, data, cont, x);
    ProcReads(DesugarSendSynch(n, data, cont, x), acc, cx, State(st.free, st.supply + 1), r, ns);
  }

  lemma {:induction false} ChoiceReads(branches: seq<Branch>, acc: Par, cx: Context, st: State, r: Out, ns: Names)
    requires Ready(cx, st) && Follows(cx, ns) && NormChoice(branches, acc, cx, st) == Ok(r)
    requires Listed(r.st.free, ns.free)
    ensures Extends(st.free, r.st.free) && ReadsChoice(branches, ns, acc, r.par)
    decreases 2 + WBranches(branches), 0
  {
    hide NormProc, Reads, FreeMap.Valid, BoundMap.Valid, Follows, Listed, Extends, DesugarChoice;
    ChoiceWeight(branches);
    ProcReads(DesugarChoice(branches), acc, cx, st, r, ns);
  }

  lemma {:induction false} InputReads(
    receipts: seq<Receipt>, body: Proc, acc: Par, cx: Context, st: State, r: Out, ns: Names)
    requires Ready(cx, st) && Follows(cx, ns) && NormInput(receipts, body, acc, cx, st) == Ok(r)
    requires Listed(r.st.free, ns.free)
    ensures Extends(st.free, r.st.free) && ReadsInput(receipts, body, ns, acc, r.par)
    decreases WProc(PInput(receipts, body)), 6
  {
    hide NormProc, NormReceipt, Reads, ReadsReceipt, FreeMap.Valid, BoundMap.Valid, Follows, Listed, Extends,
         NestReceipts;
    if |receipts| > 1 {
      NestWeight(receipts, body);
      ProcReads(NestReceipts(receipts, body), acc, cx, st, r, ns);
    } else {
      assert receipts == [receipts[0]];
      OneReceiptWeight(receipts[0], body);
      ReceiptReads(receipts[0], body, acc, cx, st, r, ns);
    }
  }

  lemma {:induction false} ReceiptReads(rc: Receipt, body: Proc, acc: Par, cx: Context, st: State, r: Out, ns: Names)
    requires Ready(cx, st) && Follows(cx, ns) && NormReceipt(rc, body, acc, cx, st) == Ok(r)
    requires Listed(r.st.free, ns.free)
    ensures Extends(st.free, r.st.free) && ReadsReceipt(rc, body, ns, acc, r.par)
    decreases 1 + WReceipt(rc) + WProc(body), 5
  {
    hide NormProc, NormReceive, Reads, ReadsReceive, FreeMap.Valid, BoundMap.Valid, Follows, Listed, Extends,
         SimpleBinds, DesugarComplex, Assemble, IsComplex;
    match rc
    case ReceiptLinear(bs) =>
      if IsComplex(bs) {
        var c := DesugarComplex(bs, body, st.supply);
        ComplexWeight(bs, body, st.supply);
        OneReceiptWeight(rc, body);
        ProcReads(Assemble(c), acc, cx, State(st.free, c.supply), r, ns);
      } else {
        SimpleBindsWeight(bs);
        ReceiveReads(SimpleBinds(bs), false, false, body, acc, cx, st, r, ns);
      }
    case ReceiptRepeated(bs) => ReceiveReads(bs, true, false, body, acc, cx, st, r, ns);
    case ReceiptPeek(bs) => ReceiveReads(bs, false, true, body, acc, cx, st, r, ns);
  }

  lemma {:induction false} LetReads(d: Decl, ds: Decls, body: Proc, acc: Par, cx: Context, st: State, r: Out, ns: Names)
    requires Ready(cx, st) && Follows(cx, ns) && NormLet(d, ds, body, acc, cx, st) == Ok(r)
    requires Listed(r.st.free, ns.free)
    ensures Extends(st.free, r.st.free) && ReadsLet(d, ds, body, ns, acc, r.par)
    decreases WProc(PLet(d, ds, body)), 0
  {
    hide NormProc, NormLetMatch, Reads, ReadsLetMatch, FreeMap.Valid, BoundMap.Valid, Follows, Listed, Extends,
         LetContinuation, DesugarConcLet;
    match ds
    case EmptyDecls => LetMatchReads(d, body, acc, cx, st, r, ns);
    case LinearDecls(more) =>
      LetContinuationWeight(d, more, body);
      LetMatchReads(d, LetContinuation(more, body), acc, cx, st, r, ns);
    case ConcDecls(more) =>
      ConcLetWeight(d, more, body, st.supply);
      ProcReads(DesugarConcLet([d] + more, body, st.supply), acc, cx, State(st.free, st.supply + 1 + |more|), r, ns);
  }

  /** The names that the patterns of a `let` bind, its remainder first. */
  lemma {:induction false} LetPatternsRead(d: Decl, cx: Context, supply: nat, rest: Rest, names: Outs, ns: Names)
    requires Follows(cx, ns) && NormRemainder(d.remainder, EmptyFreeMap) == Ok(rest)
    requires NormNames(d.names, false, cx.Push(), State(rest.free, supply)) == Ok(names)
    ensures names.st.free.Valid() && |LevelNames(names.st.free)| == names.st.free.nextLevel
    ensures ReadsNames(d.names, ns.InPattern(LevelNames(names.st.free)), names.pars)
    ensures ReadsRemainder(d.remainder, LevelNames(names.st.free), rest.v)
    decreases WNames(d.names), 1
  {
    hide WProc, WNames, WProcs, NormNames, NormRemainder, ReadsNames, ReadsRemainder, FreeMap.Valid, BoundMap.Valid,
         Follows, Listed, Extends, LevelNames;
    EmptyFreeValid();
    RemainderOk(Below(0), d.remainder, EmptyFreeMap, rest);
    PushReady(cx, supply);
    var start := State(rest.free, supply);
    NamesOk(Below(0), d.names, false, cx.Push(), start, names);
    var fs := LevelNames(names.st.free);
    LevelNamesList(names.st.free);
    PushFollows(cx, ns, fs);
    NamesRead(d.names, false, cx.Push(), start, names, ns.InPattern(fs));
    ListedBefore(rest.free, names.st.free, fs);
    RemainderReads(d.remainder, EmptyFreeMap, rest, fs);
  }

  lemma {:induction false} LetMatchReads(
    d: Decl, continuation: Proc, acc: Par, cx: Context, st: State, r: Out, ns: Names)
    requires Ready(cx, st) && Follows(cx, ns) && NormLetMatch(d, continuation, acc, cx, st) == Ok(r)
    requires Listed(r.st.free, ns.free)
    ensures Extends(st.free, r.st.free) && ReadsLetMatch(d, continuation, ns, acc, r.par)
    decreases 19 + WDecl(d) + WProc(continuation), 0
  {
    hide WProc, WNames, WProcs, NormProcs, NormNames, NormRemainder, FinishLet, Reads, ReadsProcs, ReadsNames,
         ReadsRemainder, FreeMap.Valid, BoundMap.Valid, Follows, Listed, Extends, LevelNames, FromExpr, MoreMatch;
    var values := NormProcs(d.procs, cx, st).value;
    ProcsOk(Below(0), d.procs, cx, st, values);
    var rest := NormRemainder(d.remainder, EmptyFreeMap).value;
    var names := NormNames(d.names, false, cx.Push(), State(rest.free, values.st.supply)).value;
    LetPatternsRead(d, cx, values.st.supply, rest, names, ns);
    FinishLetReads(values, rest.v, names, continuation, acc, cx, r, ns);
    ListedBefore(values.st.free, r.st.free, ns.free);
    ProcsRead(d.procs, cx, st, values, ns);
    ExtendsThrough(st.free, values.st.free, r.st.free);
  }

  lemma {:induction false} FinishLetReads(
    values: Outs, rest: Option<Var>, names: Outs, continuation: Proc, acc: Par, cx: Context, r: Out, ns: Names)
    requires Ready(cx, values.st) && Follows(cx, ns) && names.st.free.Valid() && Listed(r.st.free, ns.free)
    requires FinishLet(values, rest, names, continuation, acc, cx) == Ok(r)
    ensures Extends(values.st.free, r.st.free) && MoreMatch(acc, r.par)
    ensures var m := r.par.matches[0];
            && |m.cases| == 1 && m.cases[0].freeCount == names.st.free.nextLevel
            && m.target.exprs == [EList(values.pars, None, AnyConnectiveUsed(values.pars))]
            && m.cases[0].pattern.exprs == [EList(names.pars, rest, true)]
            && m.target == FromExpr(m.target.exprs[0]) && m.cases[0].pattern == FromExpr(m.cases[0].pattern.exprs[0])
            && m.connectiveUsed == (m.target.connectiveUsed || m.cases[0].source.connectiveUsed)
            && Reads(continuation, ns.Under(LevelNames(names.st.free)), Nil, m.cases[0].source)
    decreases WProc(continuation), 10
  {
    hide WProc, WNames, WProcs, NormProc, Reads, FreeMap.Valid, BoundMap.Valid, Follows, Listed, Extends, LevelNames;
    var fm, st' := names.st.free, State(values.st.free, names.st.supply);
    AbsorbReady(cx, fm, st');
    AbsorbFollows(cx, ns, fm);
    var c := NormProc(continuation, Nil, cx.AbsorbFree(fm), st').value;
    ProcReads(continuation, Nil, cx.AbsorbFree(fm), st', c, ns.Under(LevelNames(fm)));
  }

  // ----- the compiler

  /** Whatever `normalize_term` accepts reads as the program, with no name in scope and none free. */
  lemma CompiledReads(p: Proc, env: seq<Injection>, supply: nat)
    requires NormalizeTerm(p, env, supply).Ok?
    ensures Reads(p, Names([[]], [], env), Nil, NormalizeTerm(p, env, supply).value)
  {
    hide NormProc, Reads, FreeMap.Valid;
    var cx, st := Context([EmptyBoundMap], env), State(EmptyFreeMap, supply);
    EmptyFreeValid();
    HoldsNothing();
    var r := NormProc(p, Nil, cx, st).value;
    ProcGrown(p, Nil, cx, st, r);
    NoLevelsNoBindings(r.st.free);
    ProcReads(p, Nil, cx, st, r, Names([[]], [], env));
  }

  lemma NoLevelsNoBindings(fm: FreeMap)
    requires fm.Valid() && fm.Count() <= 0
    ensures Listed(fm, [])
  {
  }

  /** `ast_to_adt` answers with the canonical form of a term that reads as the program. */
  lemma ProgramReads(p: Proc, env: seq<Injection>, supply: nat)
    requires AstToAdt(p, env, supply).Compiled?
    ensures exists q :: Reads(p, Names([[]], [], env), Nil, q) && AstToAdt(p, env, supply).par == SortPar(q).term
  {
    hide NormalizeTerm, Reads, SortPar, WellScoped;
    CompiledReads(p, env, supply);
  }
}
