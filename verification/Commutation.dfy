/** Parallel composition is commutative after compilation. `P | Q` and `Q | P`,
    compiled at any two values of the global counter, give merges of the same two
    terms in opposite orders. */
module Commutation {
  import opened Ast
  import opened Sorter
  import opened Scope
  import opened SorterInjective
  import opened SorterCanonical
  import opened CountedTerms
  import opened ProcAst
  import opened Contexts
  import opened ContextLaws
  import opened Dialects
  import opened Normalizer
  import opened NormalizerScope
  import opened Accumulator
  import opened FreshNames

  function Top(env: seq<Injection>): Context {
    Context([EmptyBoundMap], env)
  }

  /** A program that compiles hands back an empty free map. */
  lemma ClosedState(p: Proc, env: seq<Injection>, supply: nat)
    requires NormalizeTerm(p, env, supply).Ok?
    ensures NormProc(p, Nil, Top(env), State(EmptyFreeMap, supply)).Ok?
    ensures NormProc(p, Nil, Top(env), State(EmptyFreeMap, supply)).value.par == NormalizeTerm(p, env, supply).value
    ensures NormProc(p, Nil, Top(env), State(EmptyFreeMap, supply)).value.st.free == EmptyFreeMap
  {
    hide NormProc;
    EmptyFreeValid();
    var r := NormProc(p, Nil, Top(env), State(EmptyFreeMap, supply)).value;
    ProcOk(ScopedAt(0), p, Nil, Top(env), State(EmptyFreeMap, supply), r);
    assert r.st.free.bindings == map[];
  }

  /** Two conditional-free programs that compile alone compile together, to the merge of their terms. */
  lemma ParallelCompiles(p: Proc, q: Proc, env: seq<Injection>, s: nat, t: nat)
    requires Lexical(q) && NoSpineIf(q)
    requires NormalizeTerm(p, env, s).Ok? && NormalizeTerm(q, env, t).Ok?
    ensures NormalizeTerm(PPar(p, q), env, s)
         == Ok(ParMerge(NormalizeTerm(q, env, t).value, NormalizeTerm(p, env, s).value))
  {
    hide NormProc, Lexical, NoSpineIf;
    ClosedState(p, env, s);
    var cx := Top(env);
    var left := NormProc(p, Nil, cx, State(EmptyFreeMap, s)).value;
    CounterDoesNotMatter(q, env, t, left.st.supply);
    ClosedState(q, env, left.st.supply);
    Accumulator.ParStep(p, q, Nil, cx, State(EmptyFreeMap, s));
    AccumulatorLaw(q, left.par, cx, left.st);
  }

  /** `P | Q` and `Q | P` compile to terms of equal score, and to the same term exactly when the sorted
      parts commute score by score. */
  lemma ParallelCommutes(p: Proc, q: Proc, env: seq<Injection>, s: nat, t: nat)
    requires Lexical(p) && NoSpineIf(p) && Lexical(q) && NoSpineIf(q)
    requires NormalizeTerm(p, env, s).Ok? && NormalizeTerm(q, env, t).Ok?
    ensures NormalizeTerm(PPar(p, q), env, s).Ok? && NormalizeTerm(PPar(q, p), env, t).Ok?
    ensures SortPar(NormalizeTerm(PPar(p, q), env, s).value).score == SortPar(NormalizeTerm(PPar(q, p), env, t).value).score
    ensures SortPar(NormalizeTerm(PPar(p, q), env, s).value).term == SortPar(NormalizeTerm(PPar(q, p), env, t).value).term
       <==> FieldsCommute(NormalizeTerm(q, env, t).value, NormalizeTerm(p, env, s).value)
  {
    hide NormalizeTerm, Lexical, NoSpineIf, SortPar, FieldsCommute;
    ParallelCompiles(p, q, env, s, t);
    ParallelCompiles(q, p, env, t, s);
    var a, b := NormalizeTerm(p, env, s).value, NormalizeTerm(q, env, t).value;
    MergeScoresAgree(b, a);
    MergeCommutesIff(b, a);
  }

  /** On the fragment where scores are injective the two compile to one term. */
  lemma ParallelCompilesToOneTerm(fc: FreeCounter, p: Proc, q: Proc, env: seq<Injection>, s: nat, t: nat)
    requires Lexical(p) && NoSpineIf(p) && Lexical(q) && NoSpineIf(q)
    requires NormalizeTerm(p, env, s).Ok? && NormalizeTerm(q, env, t).Ok?
    requires FaithfulPar(fc, NormalizeTerm(p, env, s).value) && FaithfulPar(fc, NormalizeTerm(q, env, t).value)
    ensures AstToAdt(PPar(p, q), env, s) == AstToAdt(PPar(q, p), env, t)
  {
    hide NormalizeTerm, Lexical, NoSpineIf, SortPar, FaithfulPar;
    ParallelCompiles(p, q, env, s, t);
    ParallelCompiles(q, p, env, t, s);
    MergeCommutes(fc, NormalizeTerm(q, env, t).value, NormalizeTerm(p, env, s).value);
  }

  /** Two programs without map literals and without conditionals on their spines, in an environment without maps,
      compile to one result in either order. */
  lemma MapFreeProgramsCommute(p: Proc, q: Proc, env: seq<Injection>, s: nat, t: nat)
    requires Lexical(p) && NoSpineIf(p) && FitsProc(MapFree, p)
    requires Lexical(q) && NoSpineIf(q) && FitsProc(MapFree, q)
    requires OkInjections(Counted, env) && NormalizeTerm(p, env, s).Ok? && NormalizeTerm(q, env, t).Ok?
    ensures AstToAdt(PPar(p, q), env, s) == AstToAdt(PPar(q, p), env, t)
  {
    hide NormalizeTerm, Lexical, NoSpineIf, FitsProc, OkPar, OkInjections, FaithfulPar, AstToAdt;
    CompiledCounted(p, env, s);
    CompiledCounted(q, env, t);
    ParFaithful(NormalizeTerm(p, env, s).value);
    ParFaithful(NormalizeTerm(q, env, t).value);
    ParallelCompilesToOneTerm(LevelsReached, p, q, env, s, t);
  }
}
