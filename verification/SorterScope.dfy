/** Sorting leaves the answers of `is_closed` and `well_scoped`, and the model's own judgments, unchanged. */
module SorterScope {
  import opened Orders
  import opened StableSort
  import opened Ast
  import opened Sorter
  import opened Scope

  /** A term and its canonical form satisfy the same judgments. */
  lemma {:induction false} SortKeepsJudgment(j: Judgment, p: Par)
    ensures OkPar(j, SortPar(p).term) == OkPar(j, p)
    decreases p
  {
    SendsScope(j, p.sends);
    ReceivesScope(j, p.receives);
    NewsScope(j, p.news);
    ExprsScope(j, p.exprs);
    MatchesScope(j, p.matches);
    BundlesScope(j, p.bundles);
    ConnectivesScope(j, p.connectives);
  }

  lemma {:induction false} SendsScope(j: Judgment, ss: seq<Send>)
    ensures OkSends(j, Terms(Sort(SortSends(ss)))) == OkSends(j, ss)
    decreases ss, 0
  {
    hide Sort, SortSend, OkSend;
    var sorted := Sort(SortSends(ss));
    if OkSends(j, ss) {
      forall i | 0 <= i < |sorted| ensures OkSend(j, sorted[i].term) {
        var k := SortOrigin(SortSends(ss), i);
        SendScope(j, ss[k]);
      }
    }
    if OkSends(j, Terms(sorted)) {
      forall k | 0 <= k < |ss| ensures OkSend(j, ss[k]) {
        var i := SortKeeps(SortSends(ss), k);
        assert OkSend(j, Terms(sorted)[i]);
        SendScope(j, ss[k]);
      }
    }
  }

  lemma {:induction false} ReceivesScope(j: Judgment, rs: seq<Receive>)
    ensures OkReceives(j, Terms(Sort(SortReceives(rs)))) == OkReceives(j, rs)
    decreases rs, 0
  {
    hide Sort, SortReceive, OkReceive;
    var sorted := Sort(SortReceives(rs));
    if OkReceives(j, rs) {
      forall i | 0 <= i < |sorted| ensures OkReceive(j, sorted[i].term) {
        var k := SortOrigin(SortReceives(rs), i);
        ReceiveScope(j, rs[k]);
      }
    }
    if OkReceives(j, Terms(sorted)) {
      forall k | 0 <= k < |rs| ensures OkReceive(j, rs[k]) {
        var i := SortKeeps(SortReceives(rs), k);
        assert OkReceive(j, Terms(sorted)[i]);
        ReceiveScope(j, rs[k]);
      }
    }
  }

  lemma {:induction false} NewsScope(j: Judgment, ns: seq<New>)
    ensures OkNews(j, Terms(Sort(SortNews(ns)))) == OkNews(j, ns)
    decreases ns, 0
  {
    hide Sort, SortNew, OkNew;
    var sorted := Sort(SortNews(ns));
    if OkNews(j, ns) {
      forall i | 0 <= i < |sorted| ensures OkNew(j, sorted[i].term) {
        var k := SortOrigin(SortNews(ns), i);
        NewScope(j, ns[k]);
      }
    }
    if OkNews(j, Terms(sorted)) {
      forall k | 0 <= k < |ns| ensures OkNew(j, ns[k]) {
        var i := SortKeeps(SortNews(ns), k);
        assert OkNew(j, Terms(sorted)[i]);
        NewScope(j, ns[k]);
      }
    }
  }

  lemma {:induction false} ExprsScope(j: Judgment, es: seq<Expr>)
    ensures OkExprs(j, Terms(Sort(SortExprs(es)))) == OkExprs(j, es)
    decreases es, 0
  {
    hide Sort, SortExpr, OkExpr;
    var sorted := Sort(SortExprs(es));
    if OkExprs(j, es) {
      forall i | 0 <= i < |sorted| ensures OkExpr(j, sorted[i].term) {
        var k := SortOrigin(SortExprs(es), i);
        ExprScope(j, es[k]);
      }
    }
    if OkExprs(j, Terms(sorted)) {
      forall k | 0 <= k < |es| ensures OkExpr(j, es[k]) {
        var i := SortKeeps(SortExprs(es), k);
        assert OkExpr(j, Terms(sorted)[i]);
        ExprScope(j, es[k]);
      }
    }
  }

  lemma {:induction false} MatchesScope(j: Judgment, ms: seq<Match>)
    ensures OkMatches(j, Terms(Sort(SortMatches(ms)))) == OkMatches(j, ms)
    decreases ms, 0
  {
    hide Sort, SortMatch, OkMatch;
    var sorted := Sort(SortMatches(ms));
    if OkMatches(j, ms) {
      forall i | 0 <= i < |sorted| ensures OkMatch(j, sorted[i].term) {
        var k := SortOrigin(SortMatches(ms), i);
        MatchScope(j, ms[k]);
      }
    }
    if OkMatches(j, Terms(sorted)) {
      forall k | 0 <= k < |ms| ensures OkMatch(j, ms[k]) {
        var i := SortKeeps(SortMatches(ms), k);
        assert OkMatch(j, Terms(sorted)[i]);
        MatchScope(j, ms[k]);
      }
    }
  }

  lemma {:induction false} BundlesScope(j: Judgment, bs: seq<Bundle>)
    ensures OkBundles(j, Terms(Sort(SortBundles(bs)))) == OkBundles(j, bs)
    decreases bs, 0
  {
    hide Sort, SortBundle, OkBundle;
    var sorted := Sort(SortBundles(bs));
    if OkBundles(j, bs) {
      forall i | 0 <= i < |sorted| ensures OkBundle(j, sorted[i].term) {
        var k := SortOrigin(SortBundles(bs), i);
        BundleScope(j, bs[k]);
      }
    }
    if OkBundles(j, Terms(sorted)) {
      forall k | 0 <= k < |bs| ensures OkBundle(j, bs[k]) {
        var i := SortKeeps(SortBundles(bs), k);
        assert OkBundle(j, Terms(sorted)[i]);
        BundleScope(j, bs[k]);
      }
    }
  }

  lemma {:induction false} ConnectivesScope(j: Judgment, cs: seq<Connective>)
    ensures OkConnectives(j, Terms(Sort(SortConnectives(cs)))) == OkConnectives(j, cs)
    decreases cs, 0
  {
    hide Sort, SortConnective, OkConnective;
    var sorted := Sort(SortConnectives(cs));
    if OkConnectives(j, cs) {
      forall i | 0 <= i < |sorted| ensures OkConnective(j, sorted[i].term) {
        var k := SortOrigin(SortConnectives(cs), i);
        ConnectiveScope(j, cs[k]);
      }
    }
    if OkConnectives(j, Terms(sorted)) {
      forall k | 0 <= k < |cs| ensures OkConnective(j, cs[k]) {
        var i := SortKeeps(SortConnectives(cs), k);
        assert OkConnective(j, Terms(sorted)[i]);
        ConnectiveScope(j, cs[k]);
      }
    }
  }

  lemma {:induction false} ParsScope(j: Judgment, ps: seq<Par>)
    ensures OkPars(j, Terms(SortPars(ps))) == OkPars(j, ps)
    decreases ps, 0
  {
    hide SortPar, OkPar;
    var sorted := Terms(SortPars(ps));
    forall i | 0 <= i < |ps| ensures OkPar(j, sorted[i]) == OkPar(j, ps[i]) {
      SortKeepsJudgment(j, ps[i]);
    }
  }

  lemma {:induction false} ReceiveBindsScope(j: Judgment, bs: seq<ReceiveBind>)
    ensures OkReceiveBinds(j, Terms(SortReceiveBinds(bs))) == OkReceiveBinds(j, bs)
    decreases bs, 0
  {
    hide SortReceiveBind, OkReceiveBind;
    var sorted := Terms(SortReceiveBinds(bs));
    forall i | 0 <= i < |bs| ensures OkReceiveBind(j, sorted[i]) == OkReceiveBind(j, bs[i]) {
      ReceiveBindScope(j, bs[i]);
    }
  }

  lemma {:induction false} MatchCasesScope(j: Judgment, cs: seq<MatchCase>)
    ensures OkMatchCases(j, Terms(SortMatchCases(cs))) == OkMatchCases(j, cs)
    decreases cs, 0
  {
    hide SortMatchCase, OkMatchCase;
    var sorted := Terms(SortMatchCases(cs));
    forall i | 0 <= i < |cs| ensures OkMatchCase(j, sorted[i]) == OkMatchCase(j, cs[i]) {
      MatchCaseScope(j, cs[i]);
    }
  }

  lemma {:induction false} KeyValuesScope(j: Judgment, kvs: seq<KeyValue>)
    ensures OkKeyValues(j, Terms(SortKeyValues(kvs))) == OkKeyValues(j, kvs)
    decreases kvs, 0
  {
    hide SortKeyValue, OkKeyValue;
    var sorted := Terms(SortKeyValues(kvs));
    forall i | 0 <= i < |kvs| ensures OkKeyValue(j, sorted[i]) == OkKeyValue(j, kvs[i]) {
      KeyValueScope(j, kvs[i]);
    }
  }

  lemma {:induction false} SendScope(j: Judgment, s: Send)
    ensures OkSend(j, SortSend(s).term) == OkSend(j, s)
    decreases s
  {
    SortKeepsJudgment(j, s.chan);
    ParsScope(j, s.data);
  }

  lemma {:induction false} ReceiveBindScope(j: Judgment, b: ReceiveBind)
    ensures OkReceiveBind(j, SortReceiveBind(b).term) == OkReceiveBind(j, b)
    decreases b
  {
    ParsScope(j.InPattern(), b.patterns);
    SortKeepsJudgment(j, b.source);
    if j.Counted? { CountsScope(b.freeCount, b.patterns, b.remainder); }
  }

  lemma {:induction false} CountsScope(n: int, ps: seq<Par>, r: Option<Var>)
    ensures Counts(n, Terms(SortPars(ps)), r) == Counts(n, ps, r)
    decreases ps, 1
  {
    hide OkPars, SortPars;
    ParsScope(Below(n), ps);
    ParsScope(Below(n - 1), ps);
  }

  lemma {:induction false} InjectionsScope(j: Judgment, ns: seq<Injection>)
    ensures OkInjections(j, Terms(SortInjections(ns))) == OkInjections(j, ns)
    decreases ns, 0
  {
    var sorted := Terms(SortInjections(ns));
    forall i | 0 <= i < |ns| ensures OkInjection(j, sorted[i]) == OkInjection(j, ns[i]) {
      SortKeepsJudgment(j, ns[i].value);
    }
  }

  lemma {:induction false} ReceiveScope(j: Judgment, r: Receive)
    ensures OkReceive(j, SortReceive(r).term) == OkReceive(j, r)
    decreases r
  {
    ReceiveBindsScope(j, r.binds);
    SortKeepsJudgment(j.Under(r.bindCount), r.body);
  }

  lemma {:induction false} NewScope(j: Judgment, n: New)
    ensures OkNew(j, SortNew(n).term) == OkNew(j, n)
    decreases n
  {
    SortKeepsJudgment(j.Under(n.bindCount), n.p);
    InjectionsScope(j, n.injections);
  }

  lemma {:induction false} MatchCaseScope(j: Judgment, c: MatchCase)
    ensures OkMatchCase(j, SortMatchCase(c).term) == OkMatchCase(j, c)
    decreases c
  {
    SortKeepsJudgment(j.InPattern(), c.pattern);
    SortKeepsJudgment(j.Under(c.freeCount), c.source);
  }

  lemma {:induction false} MatchScope(j: Judgment, m: Match)
    ensures OkMatch(j, SortMatch(m).term) == OkMatch(j, m)
    decreases m
  {
    SortKeepsJudgment(j, m.target);
    MatchCasesScope(j, m.cases);
  }

  lemma {:induction false} BundleScope(j: Judgment, b: Bundle)
    ensures OkBundle(j, SortBundle(b).term) == OkBundle(j, b)
    decreases b
  {
    SortKeepsJudgment(j, b.body);
  }

  lemma {:induction false} KeyValueScope(j: Judgment, kv: KeyValue)
    ensures OkKeyValue(j, SortKeyValue(kv).term) == OkKeyValue(j, kv)
    decreases kv
  {
    SortKeepsJudgment(j, kv.key);
    SortKeepsJudgment(j, kv.value);
  }

  lemma {:induction false} ExprScope(j: Judgment, e: Expr)
    ensures OkExpr(j, SortExpr(e).term) == OkExpr(j, e)
    decreases e
  {
    hide OkPar, OkPars, OkKeyValues, SortPar, SortPars, SortKeyValues;
    match e
    case ENot(p) => SortKeepsJudgment(j, p);
    case ENeg(p) => SortKeepsJudgment(j, p);
    case EBinary(op, p, q) =>
      SortKeepsJudgment(j, p);
      if op == Matches { SortKeepsJudgment(j.Operand(), q); } else { SortKeepsJudgment(j, q); }
    case EList(ps, _, _) => ParsScope(j, ps);
    case ETuple(ps, _) => ParsScope(j, ps);
    case ESet(ps, _, _) => ParsScope(j, ps);
    case EMap(kvs, _, _) => KeyValuesScope(j, kvs);
    case EMethod(_, t, args, _) => SortKeepsJudgment(j, t); ParsScope(j, args);
    case _ =>
  }

  lemma {:induction false} ConnectiveScope(j: Judgment, c: Connective)
    ensures OkConnective(j, SortConnective(c).term) == OkConnective(j, c)
    decreases c
  {
    match c
    case ConnAnd(ps) => ParsScope(j, ps);
    case ConnOr(ps) => ParsScope(j.Operand(), ps);
    case ConnNot(p) => SortKeepsJudgment(j.Operand(), p);
    case _ =>
  }
}
