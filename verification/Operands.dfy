/** Where a free variable can hide from the normalizer's books. A term whose own free
    variables reach no level is closed exactly when the operands of negation, of
    disjunction and the patterns of `matches` in it are closed. */
module Operands {
  import opened Ast
  import opened Scope

  /** Outside the discarded operands nothing is left to check. */
  lemma {:induction false} ParSplit(p: Par)
    requires OkPar(Below(0), p)
    ensures OkPar(ClosedIn(false), p) <==> OkPar(ClosedOperands, p)
    decreases p
  {
    hide OkSends, OkReceives, OkNews, OkExprs, OkMatches, OkBundles, OkConnectives;
    SendsSplit(p.sends);
    ReceivesSplit(p.receives);
    NewsSplit(p.news);
    ExprsSplit(p.exprs);
    MatchesSplit(p.matches);
    BundlesSplit(p.bundles);
    ConnectivesSplit(p.connectives);
  }

  lemma {:induction false} SendsSplit(ss: seq<Send>)
    requires OkSends(Below(0), ss)
    ensures OkSends(ClosedIn(false), ss) <==> OkSends(ClosedOperands, ss)
    decreases ss, 0
  {
    hide OkSend;
    forall i | 0 <= i < |ss| ensures OkSend(ClosedIn(false), ss[i]) <==> OkSend(ClosedOperands, ss[i]) {
      SendSplit(ss[i]);
    }
  }

  lemma {:induction false} ReceivesSplit(rs: seq<Receive>)
    requires OkReceives(Below(0), rs)
    ensures OkReceives(ClosedIn(false), rs) <==> OkReceives(ClosedOperands, rs)
    decreases rs, 0
  {
    hide OkReceive;
    forall i | 0 <= i < |rs| ensures OkReceive(ClosedIn(false), rs[i]) <==> OkReceive(ClosedOperands, rs[i]) {
      ReceiveSplit(rs[i]);
    }
  }

  lemma {:induction false} NewsSplit(ns: seq<New>)
    requires OkNews(Below(0), ns)
    ensures OkNews(ClosedIn(false), ns) <==> OkNews(ClosedOperands, ns)
    decreases ns, 0
  {
    hide OkNew;
    forall i | 0 <= i < |ns| ensures OkNew(ClosedIn(false), ns[i]) <==> OkNew(ClosedOperands, ns[i]) {
      NewSplit(ns[i]);
    }
  }

  lemma {:induction false} ExprsSplit(es: seq<Expr>)
    requires OkExprs(Below(0), es)
    ensures OkExprs(ClosedIn(false), es) <==> OkExprs(ClosedOperands, es)
    decreases es, 0
  {
    hide OkExpr;
    forall i | 0 <= i < |es| ensures OkExpr(ClosedIn(false), es[i]) <==> OkExpr(ClosedOperands, es[i]) {
      ExprSplit(es[i]);
    }
  }

  lemma {:induction false} MatchesSplit(ms: seq<Match>)
    requires OkMatches(Below(0), ms)
    ensures OkMatches(ClosedIn(false), ms) <==> OkMatches(ClosedOperands, ms)
    decreases ms, 0
  {
    hide OkMatch;
    forall i | 0 <= i < |ms| ensures OkMatch(ClosedIn(false), ms[i]) <==> OkMatch(ClosedOperands, ms[i]) {
      MatchSplit(ms[i]);
    }
  }

  lemma {:induction false} BundlesSplit(bs: seq<Bundle>)
    requires OkBundles(Below(0), bs)
    ensures OkBundles(ClosedIn(false), bs) <==> OkBundles(ClosedOperands, bs)
    decreases bs, 0
  {
    hide OkBundle;
    forall i | 0 <= i < |bs| ensures OkBundle(ClosedIn(false), bs[i]) <==> OkBundle(ClosedOperands, bs[i]) {
      BundleSplit(bs[i]);
    }
  }

  lemma {:induction false} ConnectivesSplit(cs: seq<Connective>)
    requires OkConnectives(Below(0), cs)
    ensures OkConnectives(ClosedIn(false), cs) <==> OkConnectives(ClosedOperands, cs)
    decreases cs, 0
  {
    hide OkConnective;
    forall i | 0 <= i < |cs| ensures OkConnective(ClosedIn(false), cs[i]) <==> OkConnective(ClosedOperands, cs[i]) {
      ConnectiveSplit(cs[i]);
    }
  }

  lemma {:induction false} ParsSplit(ps: seq<Par>)
    requires OkPars(Below(0), ps)
    ensures OkPars(ClosedIn(false), ps) <==> OkPars(ClosedOperands, ps)
    decreases ps, 0
  {
    hide OkPar;
    forall i | 0 <= i < |ps| ensures OkPar(ClosedIn(false), ps[i]) <==> OkPar(ClosedOperands, ps[i]) {
      ParSplit(ps[i]);
    }
  }

  lemma {:induction false} ReceiveBindsSplit(bs: seq<ReceiveBind>)
    requires OkReceiveBinds(Below(0), bs)
    ensures OkReceiveBinds(ClosedIn(false), bs) <==> OkReceiveBinds(ClosedOperands, bs)
    decreases bs, 0
  {
    hide OkReceiveBind;
    forall i | 0 <= i < |bs| ensures OkReceiveBind(ClosedIn(false), bs[i]) <==> OkReceiveBind(ClosedOperands, bs[i]) {
      ReceiveBindSplit(bs[i]);
    }
  }

  lemma {:induction false} MatchCasesSplit(cs: seq<MatchCase>)
    requires OkMatchCases(Below(0), cs)
    ensures OkMatchCases(ClosedIn(false), cs) <==> OkMatchCases(ClosedOperands, cs)
    decreases cs, 0
  {
    hide OkMatchCase;
    forall i | 0 <= i < |cs| ensures OkMatchCase(ClosedIn(false), cs[i]) <==> OkMatchCase(ClosedOperands, cs[i]) {
      MatchCaseSplit(cs[i]);
    }
  }

  lemma {:induction false} KeyValuesSplit(kvs: seq<KeyValue>)
    requires OkKeyValues(Below(0), kvs)
    ensures OkKeyValues(ClosedIn(false), kvs) <==> OkKeyValues(ClosedOperands, kvs)
    decreases kvs, 0
  {
    hide OkKeyValue;
    forall i | 0 <= i < |kvs| ensures OkKeyValue(ClosedIn(false), kvs[i]) <==> OkKeyValue(ClosedOperands, kvs[i]) {
      KeyValueSplit(kvs[i]);
    }
  }

  lemma {:induction false} SendSplit(s: Send)
    requires OkSend(Below(0), s)
    ensures OkSend(ClosedIn(false), s) <==> OkSend(ClosedOperands, s)
    decreases s
  {
    hide OkPar, OkPars, OkReceiveBinds, OkMatchCases, OkKeyValues;
    ParSplit(s.chan);
    ParsSplit(s.data);
  }

  lemma {:induction false} ReceiveBindSplit(b: ReceiveBind)
    requires OkReceiveBind(Below(0), b)
    ensures OkReceiveBind(ClosedIn(false), b) <==> OkReceiveBind(ClosedOperands, b)
    decreases b
  {
    hide OkPar, OkPars, OkReceiveBinds, OkMatchCases, OkKeyValues;
    ParSplit(b.source);
  }

  lemma {:induction false} ReceiveSplit(r: Receive)
    requires OkReceive(Below(0), r)
    ensures OkReceive(ClosedIn(false), r) <==> OkReceive(ClosedOperands, r)
    decreases r
  {
    hide OkPar, OkPars, OkReceiveBinds, OkMatchCases, OkKeyValues;
    ReceiveBindsSplit(r.binds);
    ParSplit(r.body);
  }

  lemma {:induction false} NewSplit(n: New)
    requires OkNew(Below(0), n)
    ensures OkNew(ClosedIn(false), n) <==> OkNew(ClosedOperands, n)
    decreases n
  {
    hide OkPar, OkPars, OkReceiveBinds, OkMatchCases, OkKeyValues;
    ParSplit(n.p);
  }

  lemma {:induction false} MatchCaseSplit(c: MatchCase)
    requires OkMatchCase(Below(0), c)
    ensures OkMatchCase(ClosedIn(false), c) <==> OkMatchCase(ClosedOperands, c)
    decreases c
  {
    hide OkPar, OkPars, OkReceiveBinds, OkMatchCases, OkKeyValues;
    ParSplit(c.source);
  }

  lemma {:induction false} MatchSplit(m: Match)
    requires OkMatch(Below(0), m)
    ensures OkMatch(ClosedIn(false), m) <==> OkMatch(ClosedOperands, m)
    decreases m
  {
    hide OkPar, OkPars, OkReceiveBinds, OkMatchCases, OkKeyValues;
    ParSplit(m.target);
    MatchCasesSplit(m.cases);
  }

  lemma {:induction false} BundleSplit(b: Bundle)
    requires OkBundle(Below(0), b)
    ensures OkBundle(ClosedIn(false), b) <==> OkBundle(ClosedOperands, b)
    decreases b
  {
    hide OkPar, OkPars, OkReceiveBinds, OkMatchCases, OkKeyValues;
    ParSplit(b.body);
  }

  lemma {:induction false} KeyValueSplit(kv: KeyValue)
    requires OkKeyValue(Below(0), kv)
    ensures OkKeyValue(ClosedIn(false), kv) <==> OkKeyValue(ClosedOperands, kv)
    decreases kv
  {
    hide OkPar, OkPars, OkReceiveBinds, OkMatchCases, OkKeyValues;
    ParSplit(kv.key);
    ParSplit(kv.value);
  }

  lemma {:induction false} ExprSplit(e: Expr)
    requires OkExpr(Below(0), e)
    ensures OkExpr(ClosedIn(false), e) <==> OkExpr(ClosedOperands, e)
    decreases e
  {
    hide OkPar, OkPars, OkReceiveBinds, OkMatchCases, OkKeyValues;
    match e
    case ENot(p) => ParSplit(p);
    case ENeg(p) => ParSplit(p);
    case EBinary(op, p, q) =>
      ParSplit(p);
      if op != Matches { ParSplit(q); }
    case EList(ps, _, _) => ParsSplit(ps);
    case ETuple(ps, _) => ParsSplit(ps);
    case ESet(ps, _, _) => ParsSplit(ps);
    case EMap(kvs, _, _) => KeyValuesSplit(kvs);
    case EMethod(_, t, args, _) => ParSplit(t); ParsSplit(args);
    case _ =>
  }

  lemma {:induction false} ConnectiveSplit(c: Connective)
    requires OkConnective(Below(0), c)
    ensures OkConnective(ClosedIn(false), c) <==> OkConnective(ClosedOperands, c)
    decreases c
  {
    hide OkPar, OkPars, OkReceiveBinds, OkMatchCases, OkKeyValues;
    match c
    case ConnAnd(ps) => ParsSplit(ps);
    case _ =>
  }
}
