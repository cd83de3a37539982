/** Laws of the term judgments: a judgment can be weakened, nothing is refused in
    pattern position, and the `Par` builders keep what their parts satisfy. */
module ScopeLaws {
  import opened Ast
  import opened ParOps
  import opened Scope

  lemma UnderImplies(j: Judgment, k: Judgment, n: int)
    requires j.Implies(k)
    ensures j.Under(n).Implies(k.Under(n))
    ensures j.InPattern().Implies(k.InPattern()) && j.Operand().Implies(k.Operand())
  {
  }

  /** A term in scope under few binders is in scope under more; a closed term is closed as a pattern. */
  lemma {:induction false} WeakenPar(j: Judgment, k: Judgment, p: Par)
    requires j.Implies(k) && OkPar(j, p)
    ensures OkPar(k, p)
    decreases p
  {
    hide OkSends, OkReceives, OkNews, OkExprs, OkMatches, OkBundles, OkConnectives;
    WeakenSends(j, k, p.sends);
    WeakenReceives(j, k, p.receives);
    WeakenNews(j, k, p.news);
    WeakenExprs(j, k, p.exprs);
    WeakenMatches(j, k, p.matches);
    WeakenBundles(j, k, p.bundles);
    WeakenConnectives(j, k, p.connectives);
  }

  lemma {:induction false} WeakenPars(j: Judgment, k: Judgment, ps: seq<Par>)
    requires j.Implies(k) && OkPars(j, ps)
    ensures OkPars(k, ps)
    decreases ps, 0
  {
    hide OkPar;
    forall i | 0 <= i < |ps| ensures OkPar(k, ps[i]) { WeakenPar(j, k, ps[i]); }
  }

  lemma {:induction false} WeakenSends(j: Judgment, k: Judgment, ss: seq<Send>)
    requires j.Implies(k) && OkSends(j, ss)
    ensures OkSends(k, ss)
    decreases ss, 0
  {
    hide OkSend;
    forall i | 0 <= i < |ss| ensures OkSend(k, ss[i]) { WeakenSend(j, k, ss[i]); }
  }

  lemma {:induction false} WeakenReceiveBinds(j: Judgment, k: Judgment, bs: seq<ReceiveBind>)
    requires j.Implies(k) && OkReceiveBinds(j, bs)
    ensures OkReceiveBinds(k, bs)
    decreases bs, 0
  {
    hide OkReceiveBind;
    forall i | 0 <= i < |bs| ensures OkReceiveBind(k, bs[i]) { WeakenReceiveBind(j, k, bs[i]); }
  }

  lemma {:induction false} WeakenReceives(j: Judgment, k: Judgment, rs: seq<Receive>)
    requires j.Implies(k) && OkReceives(j, rs)
    ensures OkReceives(k, rs)
    decreases rs, 0
  {
    hide OkReceive;
    forall i | 0 <= i < |rs| ensures OkReceive(k, rs[i]) { WeakenReceive(j, k, rs[i]); }
  }

  lemma {:induction false} WeakenNews(j: Judgment, k: Judgment, ns: seq<New>)
    requires j.Implies(k) && OkNews(j, ns)
    ensures OkNews(k, ns)
    decreases ns, 0
  {
    hide OkNew;
    forall i | 0 <= i < |ns| ensures OkNew(k, ns[i]) { WeakenNew(j, k, ns[i]); }
  }

  lemma {:induction false} WeakenExprs(j: Judgment, k: Judgment, es: seq<Expr>)
    requires j.Implies(k) && OkExprs(j, es)
    ensures OkExprs(k, es)
    decreases es, 0
  {
    hide OkExpr;
    forall i | 0 <= i < |es| ensures OkExpr(k, es[i]) { WeakenExpr(j, k, es[i]); }
  }

  lemma {:induction false} WeakenMatchCases(j: Judgment, k: Judgment, cs: seq<MatchCase>)
    requires j.Implies(k) && OkMatchCases(j, cs)
    ensures OkMatchCases(k, cs)
    decreases cs, 0
  {
    hide OkMatchCase;
    forall i | 0 <= i < |cs| ensures OkMatchCase(k, cs[i]) { WeakenMatchCase(j, k, cs[i]); }
  }

  lemma {:induction false} WeakenMatches(j: Judgment, k: Judgment, ms: seq<Match>)
    requires j.Implies(k) && OkMatches(j, ms)
    ensures OkMatches(k, ms)
    decreases ms, 0
  {
    hide OkMatch;
    forall i | 0 <= i < |ms| ensures OkMatch(k, ms[i]) { WeakenMatch(j, k, ms[i]); }
  }

  lemma {:induction false} WeakenBundles(j: Judgment, k: Judgment, bs: seq<Bundle>)
    requires j.Implies(k) && OkBundles(j, bs)
    ensures OkBundles(k, bs)
    decreases bs, 0
  {
    hide OkBundle;
    forall i | 0 <= i < |bs| ensures OkBundle(k, bs[i]) { WeakenBundle(j, k, bs[i]); }
  }

  lemma {:induction false} WeakenKeyValues(j: Judgment, k: Judgment, kvs: seq<KeyValue>)
    requires j.Implies(k) && OkKeyValues(j, kvs)
    ensures OkKeyValues(k, kvs)
    decreases kvs, 0
  {
    hide OkKeyValue;
    forall i | 0 <= i < |kvs| ensures OkKeyValue(k, kvs[i]) { WeakenKeyValue(j, k, kvs[i]); }
  }

  lemma {:induction false} WeakenConnectives(j: Judgment, k: Judgment, cs: seq<Connective>)
    requires j.Implies(k) && OkConnectives(j, cs)
    ensures OkConnectives(k, cs)
    decreases cs, 0
  {
    hide OkConnective;
    forall i | 0 <= i < |cs| ensures OkConnective(k, cs[i]) { WeakenConnective(j, k, cs[i]); }
  }

  lemma {:induction false} WeakenSend(j: Judgment, k: Judgment, s: Send)
    requires j.Implies(k) && OkSend(j, s)
    ensures OkSend(k, s)
    decreases s
  {
    hide OkPar, OkPars, OkReceiveBinds, OkMatchCases, OkKeyValues;
    WeakenPar(j, k, s.chan);
    WeakenPars(j, k, s.data);
  }

  lemma {:induction false} WeakenReceiveBind(j: Judgment, k: Judgment, b: ReceiveBind)
    requires j.Implies(k) && OkReceiveBind(j, b)
    ensures OkReceiveBind(k, b)
    decreases b
  {
    hide OkPar, OkPars, OkReceiveBinds, OkMatchCases, OkKeyValues;
    UnderImplies(j, k, 0);
    WeakenPars(j.InPattern(), k.InPattern(), b.patterns);
    WeakenPar(j, k, b.source);
  }

  lemma {:induction false} WeakenReceive(j: Judgment, k: Judgment, r: Receive)
    requires j.Implies(k) && OkReceive(j, r)
    ensures OkReceive(k, r)
    decreases r
  {
    hide OkPar, OkPars, OkReceiveBinds, OkMatchCases, OkKeyValues;
    UnderImplies(j, k, r.bindCount);
    WeakenReceiveBinds(j, k, r.binds);
    WeakenPar(j.Under(r.bindCount), k.Under(r.bindCount), r.body);
  }

  lemma {:induction false} WeakenNew(j: Judgment, k: Judgment, n: New)
    requires j.Implies(k) && OkNew(j, n)
    ensures OkNew(k, n)
    decreases n
  {
    hide OkPar, OkPars, OkReceiveBinds, OkMatchCases, OkKeyValues;
    UnderImplies(j, k, n.bindCount);
    WeakenPar(j.Under(n.bindCount), k.Under(n.bindCount), n.p);
  }

  lemma {:induction false} WeakenMatchCase(j: Judgment, k: Judgment, c: MatchCase)
    requires j.Implies(k) && OkMatchCase(j, c)
    ensures OkMatchCase(k, c)
    decreases c
  {
    hide OkPar, OkPars, OkReceiveBinds, OkMatchCases, OkKeyValues;
    UnderImplies(j, k, c.freeCount);
    WeakenPar(j.InPattern(), k.InPattern(), c.pattern);
    WeakenPar(j.Under(c.freeCount), k.Under(c.freeCount), c.source);
  }

  lemma {:induction false} WeakenMatch(j: Judgment, k: Judgment, m: Match)
    requires j.Implies(k) && OkMatch(j, m)
    ensures OkMatch(k, m)
    decreases m
  {
    hide OkPar, OkPars, OkReceiveBinds, OkMatchCases, OkKeyValues;
    WeakenPar(j, k, m.target);
    WeakenMatchCases(j, k, m.cases);
  }

  lemma {:induction false} WeakenBundle(j: Judgment, k: Judgment, b: Bundle)
    requires j.Implies(k) && OkBundle(j, b)
    ensures OkBundle(k, b)
    decreases b
  {
    hide OkPar, OkPars, OkReceiveBinds, OkMatchCases, OkKeyValues;
    WeakenPar(j, k, b.body);
  }

  lemma {:induction false} WeakenKeyValue(j: Judgment, k: Judgment, kv: KeyValue)
    requires j.Implies(k) && OkKeyValue(j, kv)
    ensures OkKeyValue(k, kv)
    decreases kv
  {
    hide OkPar, OkPars, OkReceiveBinds, OkMatchCases, OkKeyValues;
    WeakenPar(j, k, kv.key);
    WeakenPar(j, k, kv.value);
  }

  lemma {:induction false} WeakenExpr(j: Judgment, k: Judgment, e: Expr)
    requires j.Implies(k) && OkExpr(j, e)
    ensures OkExpr(k, e)
    decreases e
  {
    hide OkPar, OkPars, OkReceiveBinds, OkMatchCases, OkKeyValues;
    match e
    case ENot(p) => WeakenPar(j, k, p);
    case ENeg(p) => WeakenPar(j, k, p);
    case EBinary(op, p, q) =>
      UnderImplies(j, k, 0);
      WeakenPar(j, k, p);
      if op == Matches { WeakenPar(j.Operand(), k.Operand(), q); } else { WeakenPar(j, k, q); }
    case EList(ps, _, _) => WeakenPars(j, k, ps);
    case ETuple(ps, _) => WeakenPars(j, k, ps);
    case ESet(ps, _, _) => WeakenPars(j, k, ps);
    case EMap(kvs, _, _) => WeakenKeyValues(j, k, kvs);
    case EMethod(_, t, args, _) => WeakenPar(j, k, t); WeakenPars(j, k, args);
    case _ =>
  }

  lemma {:induction false} WeakenConnective(j: Judgment, k: Judgment, c: Connective)
    requires j.Implies(k) && OkConnective(j, c)
    ensures OkConnective(k, c)
    decreases c
  {
    hide OkPar, OkPars, OkReceiveBinds, OkMatchCases, OkKeyValues;
    UnderImplies(j, k, 0);
    match c
    case ConnAnd(ps) => WeakenPars(j, k, ps);
    case ConnOr(ps) => WeakenPars(j.Operand(), k.Operand(), ps);
    case ConnNot(p) => WeakenPar(j.Operand(), k.Operand(), p);
    case _ =>
  }

  // ----- builders

  lemma SendsJoined(j: Judgment, xs: seq<Send>, ys: seq<Send>)
    ensures OkSends(j, xs + ys) <==> OkSends(j, xs) && OkSends(j, ys)
  {
    hide OkSend;
    assert forall i :: 0 <= i < |ys| ==> ys[i] == (xs + ys)[|xs| + i];
    assert forall i :: 0 <= i < |xs| ==> xs[i] == (xs + ys)[i];
  }

  lemma ReceivesJoined(j: Judgment, xs: seq<Receive>, ys: seq<Receive>)
    ensures OkReceives(j, xs + ys) <==> OkReceives(j, xs) && OkReceives(j, ys)
  {
    hide OkReceive;
    assert forall i :: 0 <= i < |ys| ==> ys[i] == (xs + ys)[|xs| + i];
    assert forall i :: 0 <= i < |xs| ==> xs[i] == (xs + ys)[i];
  }

  lemma NewsJoined(j: Judgment, xs: seq<New>, ys: seq<New>)
    ensures OkNews(j, xs + ys) <==> OkNews(j, xs) && OkNews(j, ys)
  {
    hide OkNew;
    assert forall i :: 0 <= i < |ys| ==> ys[i] == (xs + ys)[|xs| + i];
    assert forall i :: 0 <= i < |xs| ==> xs[i] == (xs + ys)[i];
  }

  lemma ExprsJoined(j: Judgment, xs: seq<Expr>, ys: seq<Expr>)
    ensures OkExprs(j, xs + ys) <==> OkExprs(j, xs) && OkExprs(j, ys)
  {
    hide OkExpr;
    assert forall i :: 0 <= i < |ys| ==> ys[i] == (xs + ys)[|xs| + i];
    assert forall i :: 0 <= i < |xs| ==> xs[i] == (xs + ys)[i];
  }

  lemma MatchesJoined(j: Judgment, xs: seq<Match>, ys: seq<Match>)
    ensures OkMatches(j, xs + ys) <==> OkMatches(j, xs) && OkMatches(j, ys)
  {
    hide OkMatch;
    assert forall i :: 0 <= i < |ys| ==> ys[i] == (xs + ys)[|xs| + i];
    assert forall i :: 0 <= i < |xs| ==> xs[i] == (xs + ys)[i];
  }

  lemma BundlesJoined(j: Judgment, xs: seq<Bundle>, ys: seq<Bundle>)
    ensures OkBundles(j, xs + ys) <==> OkBundles(j, xs) && OkBundles(j, ys)
  {
    hide OkBundle;
    assert forall i :: 0 <= i < |ys| ==> ys[i] == (xs + ys)[|xs| + i];
    assert forall i :: 0 <= i < |xs| ==> xs[i] == (xs + ys)[i];
  }

  lemma ConnectivesJoined(j: Judgment, xs: seq<Connective>, ys: seq<Connective>)
    ensures OkConnectives(j, xs + ys) <==> OkConnectives(j, xs) && OkConnectives(j, ys)
  {
    hide OkConnective;
    assert forall i :: 0 <= i < |ys| ==> ys[i] == (xs + ys)[|xs| + i];
    assert forall i :: 0 <= i < |xs| ==> xs[i] == (xs + ys)[i];
  }

  lemma ConcatOk(j: Judgment, p: Par, q: Par)
    ensures OkPar(j, ParConcat(p, q)) <==> OkPar(j, p) && OkPar(j, q)
  {
    hide OkSends, OkReceives, OkNews, OkExprs, OkMatches, OkBundles, OkConnectives;
    SendsJoined(j, q.sends, p.sends);
    ReceivesJoined(j, q.receives, p.receives);
    NewsJoined(j, q.news, p.news);
    ExprsJoined(j, q.exprs, p.exprs);
    MatchesJoined(j, q.matches, p.matches);
    BundlesJoined(j, q.bundles, p.bundles);
    ConnectivesJoined(j, q.connectives, p.connectives);
  }

  lemma NilOk(j: Judgment)
    ensures OkPar(j, Nil)
  {
  }

  lemma PrependSendOk(j: Judgment, p: Par, s: Send)
    ensures OkPar(j, PrependSend(p, s)) <==> OkPar(j, p) && OkSend(j, s)
  {
    SendsJoined(j, [s], p.sends);
    assert OkSends(j, [s]) <==> OkSend(j, s) by { hide OkSend; assert [s][0] == s; }
    hide OkSends, OkReceives, OkNews, OkExprs, OkMatches, OkBundles, OkConnectives;
    hide OkSend;
  }

  lemma PrependReceiveOk(j: Judgment, p: Par, r: Receive)
    ensures OkPar(j, PrependReceive(p, r)) <==> OkPar(j, p) && OkReceive(j, r)
  {
    ReceivesJoined(j, [r], p.receives);
    assert OkReceives(j, [r]) <==> OkReceive(j, r) by { hide OkReceive; assert [r][0] == r; }
    hide OkSends, OkReceives, OkNews, OkExprs, OkMatches, OkBundles, OkConnectives;
    hide OkReceive;
  }

  lemma PrependNewOk(j: Judgment, p: Par, n: New)
    ensures OkPar(j, PrependNew(p, n)) <==> OkPar(j, p) && OkNew(j, n)
  {
    NewsJoined(j, [n], p.news);
    assert OkNews(j, [n]) <==> OkNew(j, n) by { hide OkNew; assert [n][0] == n; }
    hide OkSends, OkReceives, OkNews, OkExprs, OkMatches, OkBundles, OkConnectives;
    hide OkNew;
  }

  lemma PrependExprOk(j: Judgment, p: Par, e: Expr)
    ensures OkPar(j, PrependExpr(p, e)) <==> OkPar(j, p) && OkExpr(j, e)
  {
    ExprsJoined(j, [e], p.exprs);
    assert OkExprs(j, [e]) <==> OkExpr(j, e) by { hide OkExpr; assert [e][0] == e; }
    hide OkSends, OkReceives, OkNews, OkExprs, OkMatches, OkBundles, OkConnectives;
    hide OkExpr;
  }

  lemma PrependMatchOk(j: Judgment, p: Par, m: Match)
    ensures OkPar(j, PrependMatch(p, m)) <==> OkPar(j, p) && OkMatch(j, m)
  {
    MatchesJoined(j, [m], p.matches);
    assert OkMatches(j, [m]) <==> OkMatch(j, m) by { hide OkMatch; assert [m][0] == m; }
    hide OkSends, OkReceives, OkNews, OkExprs, OkMatches, OkBundles, OkConnectives;
    hide OkMatch;
  }

  lemma PrependBundleOk(j: Judgment, p: Par, b: Bundle)
    ensures OkPar(j, PrependBundle(p, b)) <==> OkPar(j, p) && OkBundle(j, b)
  {
    BundlesJoined(j, [b], p.bundles);
    assert OkBundles(j, [b]) <==> OkBundle(j, b) by { hide OkBundle; assert [b][0] == b; }
    hide OkSends, OkReceives, OkNews, OkExprs, OkMatches, OkBundles, OkConnectives;
    hide OkBundle;
  }

  lemma PrependConnectiveOk(j: Judgment, p: Par, c: Connective)
    ensures OkPar(j, PrependConnective(p, c)) <==> OkPar(j, p) && OkConnective(j, c)
  {
    ConnectivesJoined(j, [c], p.connectives);
    assert OkConnectives(j, [c]) <==> OkConnective(j, c) by { hide OkConnective; assert [c][0] == c; }
    hide OkSends, OkReceives, OkNews, OkExprs, OkMatches, OkBundles, OkConnectives;
    hide OkConnective;
  }
}
