/** Terms without maps whose binds count what their patterns bind are faithful, for the
    free counter that reads the count off the patterns. */
module CountedTerms {
  import opened Orders
  import opened StableSort
  import opened Ast
  import opened Sorter
  import opened Scope
  import opened ScopeLaws
  import opened SorterScope
  import opened SorterInjective

  /** The number of levels that patterns and a remainder reach, when there is one. */
  ghost function LevelsReached(ps: seq<Par>, r: Option<Var>): int {
    if n :| Counts(n, ps, r) then n else 0
  }

  lemma CountsUnique(m: int, n: int, ps: seq<Par>, r: Option<Var>)
    requires Counts(m, ps, r) && Counts(n, ps, r)
    ensures m == n
  {
    hide OkPars;
    if m < n { WeakenPars(Below(m), Below(n - 1), ps); }
    if n < m { WeakenPars(Below(n), Below(m - 1), ps); }
  }

  lemma {:induction false} ParFaithful(p: Par)
    requires OkPar(Counted, p)
    ensures FaithfulPar(LevelsReached, p)
    decreases p
  {
    hide OkSends, OkReceives, OkNews, OkExprs, OkMatches, OkBundles, OkConnectives, FaithfulSends, FaithfulReceives,
         FaithfulNews, FaithfulExprs, FaithfulMatches, FaithfulBundles, FaithfulConnectives;
    SendsFaithful(p.sends);
    ReceivesFaithful(p.receives);
    NewsFaithful(p.news);
    ExprsFaithful(p.exprs);
    MatchesFaithful(p.matches);
    BundlesFaithful(p.bundles);
    ConnectivesFaithful(p.connectives);
  }

  lemma {:induction false} SendsFaithful(ss: seq<Send>)
    requires OkSends(Counted, ss)
    ensures FaithfulSends(LevelsReached, ss)
    decreases ss, 0
  {
    hide OkSend, FaithfulSend;
    forall i | 0 <= i < |ss| ensures FaithfulSend(LevelsReached, ss[i]) {
      SendFaithful(ss[i]);
    }
  }

  lemma {:induction false} ReceivesFaithful(rs: seq<Receive>)
    requires OkReceives(Counted, rs)
    ensures FaithfulReceives(LevelsReached, rs)
    decreases rs, 0
  {
    hide OkReceive, FaithfulReceive;
    forall i | 0 <= i < |rs| ensures FaithfulReceive(LevelsReached, rs[i]) {
      ReceiveFaithful(rs[i]);
    }
  }

  lemma {:induction false} NewsFaithful(ns: seq<New>)
    requires OkNews(Counted, ns)
    ensures FaithfulNews(LevelsReached, ns)
    decreases ns, 0
  {
    hide OkNew, FaithfulNew;
    forall i | 0 <= i < |ns| ensures FaithfulNew(LevelsReached, ns[i]) {
      NewFaithful(ns[i]);
    }
  }

  lemma {:induction false} ExprsFaithful(es: seq<Expr>)
    requires OkExprs(Counted, es)
    ensures FaithfulExprs(LevelsReached, es)
    decreases es, 0
  {
    hide OkExpr, FaithfulExpr;
    forall i | 0 <= i < |es| ensures FaithfulExpr(LevelsReached, es[i]) {
      ExprFaithful(es[i]);
    }
  }

  lemma {:induction false} MatchesFaithful(ms: seq<Match>)
    requires OkMatches(Counted, ms)
    ensures FaithfulMatches(LevelsReached, ms)
    decreases ms, 0
  {
    hide OkMatch, FaithfulMatch;
    forall i | 0 <= i < |ms| ensures FaithfulMatch(LevelsReached, ms[i]) {
      MatchFaithful(ms[i]);
    }
  }

  lemma {:induction false} BundlesFaithful(bs: seq<Bundle>)
    requires OkBundles(Counted, bs)
    ensures FaithfulBundles(LevelsReached, bs)
    decreases bs, 0
  {
    hide OkBundle, FaithfulBundle;
    forall i | 0 <= i < |bs| ensures FaithfulBundle(LevelsReached, bs[i]) {
      BundleFaithful(bs[i]);
    }
  }

  lemma {:induction false} ConnectivesFaithful(cs: seq<Connective>)
    requires OkConnectives(Counted, cs)
    ensures FaithfulConnectives(LevelsReached, cs)
    decreases cs, 0
  {
    hide OkConnective, FaithfulConnective;
    forall i | 0 <= i < |cs| ensures FaithfulConnective(LevelsReached, cs[i]) {
      ConnectiveFaithful(cs[i]);
    }
  }

  lemma {:induction false} ParsFaithful(ps: seq<Par>)
    requires OkPars(Counted, ps)
    ensures FaithfulPars(LevelsReached, ps)
    decreases ps, 0
  {
    hide OkPar, FaithfulPar;
    forall i | 0 <= i < |ps| ensures FaithfulPar(LevelsReached, ps[i]) {
      ParFaithful(ps[i]);
    }
  }

  lemma {:induction false} ReceiveBindsFaithful(bs: seq<ReceiveBind>)
    requires OkReceiveBinds(Counted, bs)
    ensures FaithfulReceiveBinds(LevelsReached, bs)
    decreases bs, 0
  {
    hide OkReceiveBind, FaithfulReceiveBind;
    forall i | 0 <= i < |bs| ensures FaithfulReceiveBind(LevelsReached, bs[i]) {
      ReceiveBindFaithful(bs[i]);
    }
  }

  lemma {:induction false} MatchCasesFaithful(cs: seq<MatchCase>)
    requires OkMatchCases(Counted, cs)
    ensures FaithfulMatchCases(LevelsReached, cs)
    decreases cs, 0
  {
    hide OkMatchCase, FaithfulMatchCase;
    forall i | 0 <= i < |cs| ensures FaithfulMatchCase(LevelsReached, cs[i]) {
      MatchCaseFaithful(cs[i]);
    }
  }

  lemma {:induction false} InjectionsFaithful(ns: seq<Injection>)
    requires OkInjections(Counted, ns)
    ensures FaithfulInjections(LevelsReached, ns)
    decreases ns, 0
  {
    hide OkInjection, FaithfulInjection;
    forall i | 0 <= i < |ns| ensures FaithfulInjection(LevelsReached, ns[i]) {
      InjectionFaithful(ns[i]);
    }
  }

  lemma {:induction false} SendFaithful(s: Send)
    requires OkSend(Counted, s)
    ensures FaithfulSend(LevelsReached, s)
    decreases s
  {
    hide OkPar, OkPars, OkReceiveBinds, OkMatchCases, OkKeyValues, FaithfulPar, FaithfulPars, FaithfulReceiveBinds,
         FaithfulMatchCases;
    ParFaithful(s.chan);
    ParsFaithful(s.data);
  }

  lemma {:induction false} ReceiveBindFaithful(b: ReceiveBind)
    requires OkReceiveBind(Counted, b)
    ensures FaithfulReceiveBind(LevelsReached, b)
    decreases b
  {
    hide OkPar, OkPars, OkReceiveBinds, OkMatchCases, OkKeyValues, FaithfulPar, FaithfulPars, FaithfulReceiveBinds,
         FaithfulMatchCases, SortPars, Counts;
    ParsFaithful(b.patterns);
    ParFaithful(b.source);
    CountsScope(b.freeCount, b.patterns, b.remainder);
    var ps := Terms(SortPars(b.patterns));
    CountsUnique(b.freeCount, LevelsReached(ps, b.remainder), ps, b.remainder);
  }

  lemma {:induction false} ReceiveFaithful(r: Receive)
    requires OkReceive(Counted, r)
    ensures FaithfulReceive(LevelsReached, r)
    decreases r
  {
    hide OkPar, OkPars, OkReceiveBinds, OkMatchCases, OkKeyValues, FaithfulPar, FaithfulPars, FaithfulReceiveBinds,
         FaithfulMatchCases;
    ReceiveBindsFaithful(r.binds);
    ParFaithful(r.body);
  }

  lemma {:induction false} InjectionFaithful(n: Injection)
    requires OkInjection(Counted, n)
    ensures FaithfulInjection(LevelsReached, n)
    decreases n
  {
    hide OkPar, OkPars, OkReceiveBinds, OkMatchCases, OkKeyValues, FaithfulPar, FaithfulPars, FaithfulReceiveBinds,
         FaithfulMatchCases;
    ParFaithful(n.value);
  }

  lemma {:induction false} NewFaithful(n: New)
    requires OkNew(Counted, n)
    ensures FaithfulNew(LevelsReached, n)
    decreases n
  {
    hide OkPar, OkPars, OkReceiveBinds, OkMatchCases, OkKeyValues, FaithfulPar, FaithfulPars, FaithfulReceiveBinds,
         FaithfulMatchCases, OkInjections, FaithfulInjections;
    ParFaithful(n.p);
    InjectionsFaithful(n.injections);
  }

  lemma {:induction false} MatchCaseFaithful(c: MatchCase)
    requires OkMatchCase(Counted, c)
    ensures FaithfulMatchCase(LevelsReached, c)
    decreases c
  {
    hide OkPar, OkPars, OkReceiveBinds, OkMatchCases, OkKeyValues, FaithfulPar, FaithfulPars, FaithfulReceiveBinds,
         FaithfulMatchCases;
    ParFaithful(c.pattern);
    ParFaithful(c.source);
  }

  lemma {:induction false} MatchFaithful(m: Match)
    requires OkMatch(Counted, m)
    ensures FaithfulMatch(LevelsReached, m)
    decreases m
  {
    hide OkPar, OkPars, OkReceiveBinds, OkMatchCases, OkKeyValues, FaithfulPar, FaithfulPars, FaithfulReceiveBinds,
         FaithfulMatchCases;
    ParFaithful(m.target);
    MatchCasesFaithful(m.cases);
  }

  lemma {:induction false} BundleFaithful(b: Bundle)
    requires OkBundle(Counted, b)
    ensures FaithfulBundle(LevelsReached, b)
    decreases b
  {
    hide OkPar, OkPars, OkReceiveBinds, OkMatchCases, OkKeyValues, FaithfulPar, FaithfulPars, FaithfulReceiveBinds,
         FaithfulMatchCases;
    ParFaithful(b.body);
  }

  lemma {:induction false} ExprFaithful(e: Expr)
    requires OkExpr(Counted, e)
    ensures FaithfulExpr(LevelsReached, e)
    decreases e
  {
    hide OkPar, OkPars, OkReceiveBinds, OkMatchCases, OkKeyValues, FaithfulPar, FaithfulPars, FaithfulReceiveBinds,
         FaithfulMatchCases;
    match e
    case ENot(p) => ParFaithful(p);
    case ENeg(p) => ParFaithful(p);
    case EBinary(_, p, q) => ParFaithful(p); ParFaithful(q);
    case EList(ps, _, _) => ParsFaithful(ps);
    case ETuple(ps, _) => ParsFaithful(ps);
    case ESet(ps, _, _) => ParsFaithful(ps);
    case EMethod(_, t, args, _) => ParFaithful(t); ParsFaithful(args);
    case _ =>
  }

  lemma {:induction false} ConnectiveFaithful(c: Connective)
    requires OkConnective(Counted, c)
    ensures FaithfulConnective(LevelsReached, c)
    decreases c
  {
    hide OkPar, OkPars, OkReceiveBinds, OkMatchCases, OkKeyValues, FaithfulPar, FaithfulPars, FaithfulReceiveBinds,
         FaithfulMatchCases;
    match c
    case ConnAnd(ps) => ParsFaithful(ps);
    case ConnOr(ps) => ParsFaithful(ps);
    case ConnNot(p) => ParFaithful(p);
    case _ =>
  }
}
