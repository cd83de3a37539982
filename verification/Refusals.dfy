/** What the normalizer refuses, whatever else the program holds. */
module Refusals {
  import opened Ast
  import opened ProcAst
  import opened Contexts
  import opened ContextLaws
  import opened Normalizer
  import opened NormalizerScope
  import opened Desugared
  import opened Reading
  import opened NormalizerReads
  import opened CorePrograms

  // ----- literals

  /** A literal is refused exactly when its digits cannot be read, or a plain integer does not fit 64 bits. */
  lemma LiteralIff(g: Ground)
    ensures NormGround(g).Ok? <==> Readable(g)
  {
    hide Denotes, ParseDecimal;
    if Readable(g) { LiteralsCompile(g); }
    if NormGround(g).Ok? { GroundReads(g); }
  }

  // ----- negation and disjunction in receive patterns

  predicate IsLogic(n: Name) {
    n.NameQuote? && (n.p.PNegation? || n.p.PDisjunction?)
  }

  /** Such a pattern leaves its connective in the free map. */
  lemma LogicNoted(n: Name, cx: Context, st: State)
    requires IsLogic(n) && NormName(n, cx, st).Ok?
    ensures InvalidInPattern(NormName(n, cx, st).value.st.free)
  {
    var r := NormName(n, cx, st).value;
    assert NormProc(n.p, Nil, cx, st) == NormOperator(n.p, Nil, cx, st);
    if n.p.PNegation? {
      assert NormNegation(n.p.p, Nil, cx, st) == Ok(r);
    } else {
      assert NormDisjunction(n.p.l, n.p.r, Nil, cx, st) == Ok(r);
    }
    hide NormProc, NormOperator;
    assert r.st.free.connectives[|st.free.connectives|].ConnNot? || r.st.free.connectives[|st.free.connectives|].ConnOr?;
  }

  lemma {:induction false} GuardedPatternsRefused(ns: seq<Name>, i: nat, cx: Context, st: State)
    requires i < |ns| && IsLogic(ns[i])
    ensures NormNames(ns, true, cx, st).Err?
    decreases |ns|
  {
    hide NormName, InvalidInPattern;
    if NormName(ns[0], cx, st).Ok? {
      if i == 0 {
        LogicNoted(ns[0], cx, st);
      } else {
        GuardedPatternsRefused(ns[1..], i - 1, cx, NormName(ns[0], cx, st).value.st);
      }
    }
  }

  /** Outside any pattern, a contract or receive with such a pattern is refused. */
  lemma ContractRefused(
    n: Name, formals: seq<Name>, remainder: Remainder, body: Proc, i: nat, acc: Par, cx: Context, st: State)
    requires cx.Depth() == 0 && i < |formals| && IsLogic(formals[i])
    ensures NormContr(n, formals, remainder, body, acc, cx, st).Err?
  {
    hide NormName, NormNames, FinishContr;
    if NormName(n, cx, st).Ok? {
      GuardedPatternsRefused(formals, i, cx.Push(), State(EmptyFreeMap, NormName(n, cx, st).value.st.supply));
    }
  }

  lemma {:induction false} BindsRefused(bs: seq<NameBind>, sources: seq<Par>, k: nat, i: nat, cx: Context, supply: nat)
    requires |sources| == |bs| && cx.Depth() == 0 && k < |bs| && i < |bs[k].names| && IsLogic(bs[k].names[i])
    ensures NormBinds(bs, sources, cx, supply).Err?
    decreases |bs|
  {
    hide NormNames, NormRemainder;
    var ps := NormNames(bs[0].names, true, cx.Push(), State(EmptyFreeMap, supply));
    if k == 0 {
      GuardedPatternsRefused(bs[0].names, i, cx.Push(), State(EmptyFreeMap, supply));
    } else if ps.Ok? {
      BindsRefused(bs[1..], sources[1..], k - 1, i, cx, ps.value.st.supply);
    }
  }

  lemma ReceiveRefused(
    bs: seq<NameBind>, persistent: bool, peek: bool, body: Proc, k: nat, i: nat, acc: Par, cx: Context, st: State)
    requires cx.Depth() == 0 && k < |bs| && i < |bs[k].names| && IsLogic(bs[k].names[i])
    ensures NormReceive(bs, persistent, peek, body, acc, cx, st).Err?
  {
    hide NormSources, NormBinds, FinishReceive;
    if NormSources(bs, cx, st).Ok? {
      var sources := NormSources(bs, cx, st).value;
      BindsRefused(bs, sources.pars, k, i, cx, sources.st.supply);
    }
  }

  // ----- bundles

  /** A bundle is accepted exactly when its body compiles without connectives and no free name or wildcard has been met. */
  lemma BundleIff(kind: BundleKind, body: Proc, acc: Par, cx: Context, st: State)
    ensures NormBundle(kind, body, acc, cx, st).Ok? <==>
              var r := NormProc(body, Nil, cx, st);
              r.Ok? && r.value.par.connectives == [] && Clean(r.value.st)
  {
    hide NormProc;
  }

  // ----- whole programs

  /** What may not stand beside the other processes of a program: a wildcard, a variable, or a logical connective. */
  predicate IsPatternOnly(p: Proc) {
    p.PVar? || p.PNegation? || p.PConjunction? || p.PDisjunction?
  }

  function Top(env: seq<Injection>): Context {
    Context([EmptyBoundMap], env)
  }

  predicate MetNothing(fm: FreeMap) {
    fm.bindings == map[] && fm.wildcards == 0 && fm.connectives == []
  }

  lemma TopGrows(p: Proc, acc: Par, env: seq<Injection>, st: State, r: Out)
    requires st.free.Valid() && NormProc(p, acc, Top(env), st) == Ok(r)
    ensures r.st.free.Valid() && Extends(st.free, r.st.free)
  {
    hide NormProc, Reads, FreeMap.Valid, LevelNames;
    ProcGrown(p, acc, Top(env), st, r);
    LevelNamesList(r.st.free);
    HoldsNothing();
    ProcReads(p, acc, Top(env), st, r, Names([[]], LevelNames(r.st.free), env));
  }

  /** Such a part is noted in the free map. */
  lemma PatternNoted(p: Proc, acc: Par, env: seq<Injection>, st: State, r: Out)
    requires IsPatternOnly(p) && NormProc(p, acc, Top(env), st) == Ok(r)
    ensures !MetNothing(r.st.free)
  {
    if p.PVar? {
      assert NormProc(p, acc, Top(env), st) == NormProcVar(p.v, acc, Top(env), st);
      if p.v.ProcVarVar? { assert p.v.x in r.st.free.bindings; }
    } else {
      assert NormProc(p, acc, Top(env), st) == NormOperator(p, acc, Top(env), st);
      hide NormProc;
      match p
      case PNegation(q) => assert NormNegation(q, acc, Top(env), st) == Ok(r);
      case PConjunction(l, q) => assert NormConjunction(l, q, acc, Top(env), st) == Ok(r);
      case PDisjunction(l, q) => assert NormDisjunction(l, q, acc, Top(env), st) == Ok(r);
    }
  }

  lemma {:induction false} PartNoted(p: Proc, q: Proc, acc: Par, env: seq<Injection>, st: State, r: Out)
    requires st.free.Valid() && q in Parallel(p) && IsPatternOnly(q) && NormProc(p, acc, Top(env), st) == Ok(r)
    ensures !MetNothing(r.st.free)
    decreases p
  {
    hide FreeMap.Valid, IsPatternOnly;
    if p.PPar? {
      assert NormProc(p, acc, Top(env), st) == NormPPar(p.l, p.r, acc, Top(env), st);
      hide NormProc;
      var left := NormProc(p.l, acc, Top(env), st).value;
      TopGrows(p.l, acc, env, st, left);
      TopGrows(p.r, left.par, env, left.st, r);
      if q in Parallel(p.l) {
        PartNoted(p.l, q, acc, env, st, left);
      } else {
        PartNoted(p.r, q, left.par, env, left.st, r);
      }
    } else {
      hide NormProc;
      PatternNoted(p, acc, env, st, r);
    }
  }

  /** A program with such a part anywhere among its parallel parts is refused. */
  lemma PatternsRefused(p: Proc, q: Proc, env: seq<Injection>, supply: nat)
    requires q in Parallel(p) && IsPatternOnly(q)
    ensures NormalizeTerm(p, env, supply).Err?
  {
    hide NormProc, IsPatternOnly, Parallel;
    var st := State(EmptyFreeMap, supply);
    EmptyFreeValid();
    if NormProc(p, Nil, Top(env), st).Ok? {
      var r := NormProc(p, Nil, Top(env), st).value;
      PartNoted(p, q, Nil, env, st, r);
      TopLevelIff(p, env, supply, r);
    }
  }
}
