/** Sorting an already sorted term changes neither the term nor its score. One
    mutual induction over the whole syntax proves both at once. */
module SorterIdempotent {
  import opened StableSort
  import opened Ast
  import opened Sorter


  /** Sorting is idempotent on every term and leaves its score unchanged. */
  lemma {:induction false} SortParStable(p: Par)
    ensures SortPar(SortPar(p).term) == SortPar(p)
    decreases p
  {
    SendsStable(p.sends);
    ReceivesStable(p.receives);
    ExprsStable(p.exprs);
    NewsStable(p.news);
    MatchesStable(p.matches);
    BundlesStable(p.bundles);
    ConnectivesStable(p.connectives);
    UnforgeablesStable(p.unforgeables);
  }

  lemma {:induction false} ParsStable(ps: seq<Par>)
    ensures SortPars(Terms(SortPars(ps))) == SortPars(ps)
    decreases ps, 0
  {
    forall i | 0 <= i < |ps| ensures SortPar(SortPar(ps[i]).term) == SortPar(ps[i]) {
      SortParStable(ps[i]);
    }
  }

  lemma {:induction false} SendsStable(ss: seq<Send>)
    ensures Sort(SortSends(Terms(Sort(SortSends(ss))))) == Sort(SortSends(ss))
    decreases ss, 0
  {
    var once := Sort(SortSends(ss));
    forall i | 0 <= i < |once| ensures SortSend(once[i].term) == once[i] {
      var k := SortOrigin(SortSends(ss), i);
      SendStable(ss[k]);
    }
    assert SortSends(Terms(once)) == once;
    SortIdempotent(SortSends(ss));
  }

  lemma {:induction false} SendStable(s: Send)
    ensures SortSend(SortSend(s).term) == SortSend(s)
    decreases s
  {
    SortParStable(s.chan);
    ParsStable(s.data);
  }

  lemma {:induction false} ReceiveBindStable(b: ReceiveBind)
    ensures SortReceiveBind(SortReceiveBind(b).term) == SortReceiveBind(b)
    decreases b
  {
    ParsStable(b.patterns);
    SortParStable(b.source);
  }

  lemma {:induction false} ReceiveBindsStable(bs: seq<ReceiveBind>)
    ensures SortReceiveBinds(Terms(SortReceiveBinds(bs))) == SortReceiveBinds(bs)
    decreases bs, 0
  {
    forall i | 0 <= i < |bs| ensures SortReceiveBind(SortReceiveBind(bs[i]).term) == SortReceiveBind(bs[i]) {
      ReceiveBindStable(bs[i]);
    }
  }

  lemma {:induction false} ReceiveStable(r: Receive)
    ensures SortReceive(SortReceive(r).term) == SortReceive(r)
    decreases r
  {
    ReceiveBindsStable(r.binds);
    SortParStable(r.body);
  }

  lemma {:induction false} ReceivesStable(rs: seq<Receive>)
    ensures Sort(SortReceives(Terms(Sort(SortReceives(rs))))) == Sort(SortReceives(rs))
    decreases rs, 0
  {
    var once := Sort(SortReceives(rs));
    forall i | 0 <= i < |once| ensures SortReceive(once[i].term) == once[i] {
      var k := SortOrigin(SortReceives(rs), i);
      ReceiveStable(rs[k]);
    }
    assert SortReceives(Terms(once)) == once;
    SortIdempotent(SortReceives(rs));
  }

  lemma {:induction false} InjectionStable(n: Injection)
    ensures SortInjection(SortInjection(n).term) == SortInjection(n)
    decreases n
  {
    SortParStable(n.value);
  }

  lemma {:induction false} InjectionsStable(ns: seq<Injection>)
    ensures SortInjections(Terms(SortInjections(ns))) == SortInjections(ns)
    decreases ns, 0
  {
    forall i | 0 <= i < |ns| ensures SortInjection(SortInjection(ns[i]).term) == SortInjection(ns[i]) {
      InjectionStable(ns[i]);
    }
  }

  lemma UrisStable(uris: seq<string>)
    ensures Sort(ScoreUris(Terms(Sort(ScoreUris(uris))))) == Sort(ScoreUris(uris))
  {
    var once := Sort(ScoreUris(uris));
    forall i | 0 <= i < |once| ensures once[i] == Scored(once[i].term, Str(once[i].term)) {
      var k := SortOrigin(ScoreUris(uris), i);
    }
    assert ScoreUris(Terms(once)) == once;
    SortIdempotent(ScoreUris(uris));
  }

  lemma {:induction false} NewStable(n: New)
    ensures SortNew(SortNew(n).term) == SortNew(n)
    decreases n
  {
    SortParStable(n.p);
    UrisStable(n.uri);
    InjectionsStable(n.injections);
  }

  lemma {:induction false} NewsStable(ns: seq<New>)
    ensures Sort(SortNews(Terms(Sort(SortNews(ns))))) == Sort(SortNews(ns))
    decreases ns, 0
  {
    var once := Sort(SortNews(ns));
    forall i | 0 <= i < |once| ensures SortNew(once[i].term) == once[i] {
      var k := SortOrigin(SortNews(ns), i);
      NewStable(ns[k]);
    }
    assert SortNews(Terms(once)) == once;
    SortIdempotent(SortNews(ns));
  }

  lemma {:induction false} MatchCaseStable(c: MatchCase)
    ensures SortMatchCase(SortMatchCase(c).term) == SortMatchCase(c)
    decreases c
  {
    SortParStable(c.pattern);
    SortParStable(c.source);
  }

  lemma {:induction false} MatchCasesStable(cs: seq<MatchCase>)
    ensures SortMatchCases(Terms(SortMatchCases(cs))) == SortMatchCases(cs)
    decreases cs, 0
  {
    forall i | 0 <= i < |cs| ensures SortMatchCase(SortMatchCase(cs[i]).term) == SortMatchCase(cs[i]) {
      MatchCaseStable(cs[i]);
    }
  }

  lemma {:induction false} MatchStable(m: Match)
    ensures SortMatch(SortMatch(m).term) == SortMatch(m)
    decreases m
  {
    SortParStable(m.target);
    MatchCasesStable(m.cases);
  }

  lemma {:induction false} MatchesStable(ms: seq<Match>)
    ensures Sort(SortMatches(Terms(Sort(SortMatches(ms))))) == Sort(SortMatches(ms))
    decreases ms, 0
  {
    var once := Sort(SortMatches(ms));
    forall i | 0 <= i < |once| ensures SortMatch(once[i].term) == once[i] {
      var k := SortOrigin(SortMatches(ms), i);
      MatchStable(ms[k]);
    }
    assert SortMatches(Terms(once)) == once;
    SortIdempotent(SortMatches(ms));
  }

  lemma {:induction false} BundleStable(b: Bundle)
    ensures SortBundle(SortBundle(b).term) == SortBundle(b)
    decreases b
  {
    SortParStable(b.body);
  }

  lemma {:induction false} BundlesStable(bs: seq<Bundle>)
    ensures Sort(SortBundles(Terms(Sort(SortBundles(bs))))) == Sort(SortBundles(bs))
    decreases bs, 0
  {
    var once := Sort(SortBundles(bs));
    forall i | 0 <= i < |once| ensures SortBundle(once[i].term) == once[i] {
      var k := SortOrigin(SortBundles(bs), i);
      BundleStable(bs[k]);
    }
    assert SortBundles(Terms(once)) == once;
    SortIdempotent(SortBundles(bs));
  }

  lemma {:induction false} ConnectiveStable(c: Connective)
    ensures SortConnective(SortConnective(c).term) == SortConnective(c)
    decreases c
  {
    match c
    case ConnAnd(ps) => ParsStable(ps);
    case ConnOr(ps) => ParsStable(ps);
    case ConnNot(p) => SortParStable(p);
    case _ =>
  }

  lemma {:induction false} ConnectivesStable(cs: seq<Connective>)
    ensures Sort(SortConnectives(Terms(Sort(SortConnectives(cs))))) == Sort(SortConnectives(cs))
    decreases cs, 0
  {
    var once := Sort(SortConnectives(cs));
    forall i | 0 <= i < |once| ensures SortConnective(once[i].term) == once[i] {
      var k := SortOrigin(SortConnectives(cs), i);
      ConnectiveStable(cs[k]);
    }
    assert SortConnectives(Terms(once)) == once;
    SortIdempotent(SortConnectives(cs));
  }

  lemma UnforgeablesStable(us: seq<GUnforgeable>)
    ensures Sort(SortUnforgeables(Terms(Sort(SortUnforgeables(us))))) == Sort(SortUnforgeables(us))
  {
    var once := Sort(SortUnforgeables(us));
    forall i | 0 <= i < |once| ensures SortUnforgeable(once[i].term) == once[i] {
      var k := SortOrigin(SortUnforgeables(us), i);
    }
    assert SortUnforgeables(Terms(once)) == once;
    SortIdempotent(SortUnforgeables(us));
  }

  lemma {:induction false} KeyValueStable(kv: KeyValue)
    ensures SortKeyValue(SortKeyValue(kv).term) == SortKeyValue(kv)
    decreases kv
  {
    SortParStable(kv.key);
    SortParStable(kv.value);
  }

  lemma {:induction false} KeyValuesStable(kvs: seq<KeyValue>)
    ensures SortKeyValues(Terms(SortKeyValues(kvs))) == SortKeyValues(kvs)
    decreases kvs, 0
  {
    forall i | 0 <= i < |kvs| ensures SortKeyValue(SortKeyValue(kvs[i]).term) == SortKeyValue(kvs[i]) {
      KeyValueStable(kvs[i]);
    }
  }

  lemma {:induction false} ExprStable(e: Expr)
    ensures SortExpr(SortExpr(e).term) == SortExpr(e)
    decreases e
  {
    hide SortPar, SortPars, SortKeyValues;
    match e
    case ENot(p) => SortParStable(p);
    case ENeg(p) => SortParStable(p);
    case EBinary(_, p, q) => SortParStable(p); SortParStable(q);
    case EList(ps, _, _) => ParsStable(ps);
    case ETuple(ps, _) => ParsStable(ps);
    case ESet(ps, _, _) => ParsStable(ps);
    case EMap(kvs, _, _) => KeyValuesStable(kvs);
    case EMethod(_, t, args, _) => SortParStable(t); ParsStable(args);
    case _ =>
  }

  lemma {:induction false} ExprsStable(es: seq<Expr>)
    ensures Sort(SortExprs(Terms(Sort(SortExprs(es))))) == Sort(SortExprs(es))
    decreases es, 0
  {
    var once := Sort(SortExprs(es));
    forall i | 0 <= i < |once| ensures SortExpr(once[i].term) == once[i] {
      var k := SortOrigin(SortExprs(es), i);
      ExprStable(es[k]);
    }
    assert SortExprs(Terms(once)) == once;
    SortIdempotent(SortExprs(es));
  }
}
