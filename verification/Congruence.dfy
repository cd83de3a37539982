/** What canonical form decides. The content of a term forgets the order of parallel components, at every depth, and of
    the uris of a `new`, and nothing else. Sorting keeps the content of every term, and terms of equal content have
    equal scores; so on the faithful fragment two terms have the same canonical form exactly when they have the same content. */
module Congruence {
  import opened Orders
  import opened StableSort
  import opened Ast
  import opened Sorter
  import opened SorterInjective
  import opened SorterCanonical

  datatype PContent = PContent(
    sends: multiset<SContent>,
    receives: multiset<RContent>,
    news: multiset<NContent>,
    exprs: multiset<EContent>,
    matches: multiset<MContent>,
    unforgeables: multiset<GUnforgeable>,
    bundles: multiset<BContent>,
    connectives: multiset<CContent>,
    connectiveUsed: bool)

  datatype SContent = SContent(chan: PContent, data: seq<PContent>, persistent: bool, connectiveUsed: bool)

  datatype BindContent = BindContent(patterns: seq<PContent>, source: PContent, remainder: Option<Var>, freeCount: int)

  datatype RContent = RContent(
    binds: seq<BindContent>, body: PContent, persistent: bool, peek: bool, bindCount: int, connectiveUsed: bool)

  datatype IContent = IContent(key: string, value: PContent)

  datatype NContent = NContent(bindCount: int, p: PContent, uri: multiset<string>, injections: seq<IContent>)

  datatype CaseContent = CaseContent(pattern: PContent, source: PContent, freeCount: int)

  datatype MContent = MContent(target: PContent, cases: seq<CaseContent>, connectiveUsed: bool)

  datatype BContent = BContent(body: PContent, writeFlag: bool, readFlag: bool)

  datatype KContent = KContent(key: PContent, value: PContent)

  datatype EContent =
    | Atom(e: Expr)
    | NotContent(p: PContent)
    | NegContent(p: PContent)
    | BinaryContent(op: BinaryOp, left: PContent, right: PContent)
    | ListContent(ps: seq<PContent>, remainder: Option<Var>, connectiveUsed: bool)
    | TupleContent(ps: seq<PContent>, connectiveUsed: bool)
    | SetContent(ps: seq<PContent>, remainder: Option<Var>, connectiveUsed: bool)
    | MapContent(kvs: seq<KContent>, remainder: Option<Var>, connectiveUsed: bool)
    | MethodContent(name: string, target: PContent, arguments: seq<PContent>, connectiveUsed: bool)

  datatype CContent = AtomC(c: Connective) | AndContent(ps: seq<PContent>) | OrContent(ps: seq<PContent>) | NotC(p: PContent)

  // ----- the content of a term

  ghost function OfPar(p: Par): PContent
    decreases p
  {
    PContent(multiset(OfSends(p.sends)), multiset(OfReceives(p.receives)), multiset(OfNews(p.news)), multiset(OfExprs(p.exprs)),
             multiset(OfMatches(p.matches)), multiset(p.unforgeables), multiset(OfBundles(p.bundles)),
             multiset(OfConnectives(p.connectives)), p.connectiveUsed)
  }

  ghost function OfSend(s: Send): SContent
    decreases s
  {
    SContent(OfPar(s.chan), OfPars(s.data), s.persistent, s.connectiveUsed)
  }

  ghost function OfBind(b: ReceiveBind): BindContent
    decreases b
  {
    BindContent(OfPars(b.patterns), OfPar(b.source), b.remainder, b.freeCount)
  }

  ghost function OfReceive(r: Receive): RContent
    decreases r
  {
    RContent(OfBinds(r.binds), OfPar(r.body), r.persistent, r.peek, r.bindCount, r.connectiveUsed)
  }

  ghost function OfInjection(n: Injection): IContent
    decreases n
  {
    IContent(n.key, OfPar(n.value))
  }

  ghost function OfNew(n: New): NContent
    decreases n
  {
    NContent(n.bindCount, OfPar(n.p), multiset(n.uri), OfInjections(n.injections))
  }

  ghost function OfCase(c: MatchCase): CaseContent
    decreases c
  {
    CaseContent(OfPar(c.pattern), OfPar(c.source), c.freeCount)
  }

  ghost function OfMatch(m: Match): MContent
    decreases m
  {
    MContent(OfPar(m.target), OfCases(m.cases), m.connectiveUsed)
  }

  ghost function OfBundle(b: Bundle): BContent
    decreases b
  {
    BContent(OfPar(b.body), b.writeFlag, b.readFlag)
  }

  ghost function OfKeyValue(kv: KeyValue): KContent
    decreases kv
  {
    KContent(OfPar(kv.key), OfPar(kv.value))
  }

  ghost function OfExpr(e: Expr): EContent
    decreases e
  {
    match e
    case ENot(p) => NotContent(OfPar(p))
    case ENeg(p) => NegContent(OfPar(p))
    case EBinary(op, p, q) => BinaryContent(op, OfPar(p), OfPar(q))
    case EList(ps, r, cu) => ListContent(OfPars(ps), r, cu)
    case ETuple(ps, cu) => TupleContent(OfPars(ps), cu)
    case ESet(ps, r, cu) => SetContent(OfPars(ps), r, cu)
    case EMap(kvs, r, cu) => MapContent(OfKeyValues(kvs), r, cu)
    case EMethod(name, t, args, cu) => MethodContent(name, OfPar(t), OfPars(args), cu)
    case _ => Atom(e)
  }

  ghost function OfConnective(c: Connective): CContent
    decreases c
  {
    match c
    case ConnAnd(ps) => AndContent(OfPars(ps))
    case ConnOr(ps) => OrContent(OfPars(ps))
    case ConnNot(p) => NotC(OfPar(p))
    case _ => AtomC(c)
  }

  ghost function OfPars(ps: seq<Par>): (r: seq<PContent>)
    ensures |r| == |ps| && forall i :: 0 <= i < |ps| ==> r[i] == OfPar(ps[i])
    decreases ps
  {
    if ps == [] then [] else [OfPar(ps[0])] + OfPars(ps[1..])
  }

  ghost function OfSends(ss: seq<Send>): (r: seq<SContent>)
    ensures |r| == |ss| && forall i :: 0 <= i < |ss| ==> r[i] == OfSend(ss[i])
    decreases ss
  {
    if ss == [] then [] else [OfSend(ss[0])] + OfSends(ss[1..])
  }

  ghost function OfBinds(bs: seq<ReceiveBind>): (r: seq<BindContent>)
    ensures |r| == |bs| && forall i :: 0 <= i < |bs| ==> r[i] == OfBind(bs[i])
    decreases bs
  {
    if bs == [] then [] else [OfBind(bs[0])] + OfBinds(bs[1..])
  }

  ghost function OfReceives(rs: seq<Receive>): (r: seq<RContent>)
    ensures |r| == |rs| && forall i :: 0 <= i < |rs| ==> r[i] == OfReceive(rs[i])
    decreases rs
  {
    if rs == [] then [] else [OfReceive(rs[0])] + OfReceives(rs[1..])
  }

  ghost function OfInjections(ns: seq<Injection>): (r: seq<IContent>)
    ensures |r| == |ns| && forall i :: 0 <= i < |ns| ==> r[i] == OfInjection(ns[i])
    decreases ns
  {
    if ns == [] then [] else [OfInjection(ns[0])] + OfInjections(ns[1..])
  }

  ghost function OfNews(ns: seq<New>): (r: seq<NContent>)
    ensures |r| == |ns| && forall i :: 0 <= i < |ns| ==> r[i] == OfNew(ns[i])
    decreases ns
  {
    if ns == [] then [] else [OfNew(ns[0])] + OfNews(ns[1..])
  }

  ghost function OfCases(cs: seq<MatchCase>): (r: seq<CaseContent>)
    ensures |r| == |cs| && forall i :: 0 <= i < |cs| ==> r[i] == OfCase(cs[i])
    decreases cs
  {
    if cs == [] then [] else [OfCase(cs[0])] + OfCases(cs[1..])
  }

  ghost function OfMatches(ms: seq<Match>): (r: seq<MContent>)
    ensures |r| == |ms| && forall i :: 0 <= i < |ms| ==> r[i] == OfMatch(ms[i])
    decreases ms
  {
    if ms == [] then [] else [OfMatch(ms[0])] + OfMatches(ms[1..])
  }

  ghost function OfBundles(bs: seq<Bundle>): (r: seq<BContent>)
    ensures |r| == |bs| && forall i :: 0 <= i < |bs| ==> r[i] == OfBundle(bs[i])
    decreases bs
  {
    if bs == [] then [] else [OfBundle(bs[0])] + OfBundles(bs[1..])
  }

  ghost function OfKeyValues(kvs: seq<KeyValue>): (r: seq<KContent>)
    ensures |r| == |kvs| && forall i :: 0 <= i < |kvs| ==> r[i] == OfKeyValue(kvs[i])
    decreases kvs
  {
    if kvs == [] then [] else [OfKeyValue(kvs[0])] + OfKeyValues(kvs[1..])
  }

  ghost function OfExprs(es: seq<Expr>): (r: seq<EContent>)
    ensures |r| == |es| && forall i :: 0 <= i < |es| ==> r[i] == OfExpr(es[i])
    decreases es
  {
    if es == [] then [] else [OfExpr(es[0])] + OfExprs(es[1..])
  }

  ghost function OfConnectives(cs: seq<Connective>): (r: seq<CContent>)
    ensures |r| == |cs| && forall i :: 0 <= i < |cs| ==> r[i] == OfConnective(cs[i])
    decreases cs
  {
    if cs == [] then [] else [OfConnective(cs[0])] + OfConnectives(cs[1..])
  }

  // ----- reordering

  /** If equal elements have equal images, lists that are permutations of each other have permuted images. */
  lemma {:induction false} ImagesPermute<A, B>(xs: seq<A>, ys: seq<A>, f: seq<B>, g: seq<B>)
    requires |f| == |xs| && |g| == |ys| && multiset(xs) == multiset(ys)
    requires forall i, k :: 0 <= i < |xs| && 0 <= k < |ys| && xs[i] == ys[k] ==> f[i] == g[k]
    ensures multiset(f) == multiset(g)
    decreases |xs|
  {
    assert |xs| == |multiset(xs)| && |ys| == |multiset(ys)|;
    if xs != [] {
      assert xs[0] in multiset(ys);
      var k :| 0 <= k < |ys| && ys[k] == xs[0];
      forall i, m | 0 <= i < |xs[1..]| && 0 <= m < |Without(ys, k)| && xs[1..][i] == Without(ys, k)[m]
        ensures f[1..][i] == Without(g, k)[m]
      {
        var at := if m < k then m else m + 1;
        assert Without(ys, k)[m] == ys[at] && Without(g, k)[m] == g[at];
      }
      TailPermutes(xs, ys, k);
      ImagesPermute(xs[1..], Without(ys, k), f[1..], Without(g, k));
      WithoutOne(g, k);
      assert f == [f[0]] + f[1..];
    }
  }

  function Without<A>(ys: seq<A>, k: nat): (r: seq<A>)
    requires k < |ys|
    ensures |r| == |ys| - 1
  {
    ys[..k] + ys[k + 1..]
  }

  lemma WithoutOne<A>(ys: seq<A>, k: nat)
    requires k < |ys|
    ensures multiset(ys) == multiset{ys[k]} + multiset(Without(ys, k))
  {
    assert ys == ys[..k] + [ys[k]] + ys[k + 1..];
  }

  lemma TailPermutes<A>(xs: seq<A>, ys: seq<A>, k: nat)
    requires xs != [] && k < |ys| && ys[k] == xs[0] && multiset(xs) == multiset(ys)
    ensures multiset(xs[1..]) == multiset(Without(ys, k))
  {
    WithoutOne(ys, k);
    assert xs == [xs[0]] + xs[1..];
    assert multiset(xs[1..]) == multiset(xs) - multiset{xs[0]};
  }

  /** Sorting permutes whatever is read off the sorted elements. */
  lemma SortPermutes<T, B>(xs: seq<Scored<T>>, f: seq<B>, g: seq<B>)
    requires |f| == |xs| && |g| == |Sort(xs)|
    requires forall i, k :: 0 <= i < |xs| && 0 <= k < |Sort(xs)| && xs[i] == Sort(xs)[k] ==> f[i] == g[k]
    ensures multiset(f) == multiset(g)
  {
    hide Sort;
    SortSorted(xs);
    ImagesPermute(xs, Sort(xs), f, g);
  }

  // ----- sorting keeps the content

  lemma {:induction false} SortKeepsContent(p: Par)
    ensures OfPar(SortPar(p).term) == OfPar(p)
    decreases p, 0
  {
    hide Sort, OfSends, OfReceives, OfNews, OfExprs, OfMatches, OfBundles, OfConnectives, SortSends, SortReceives,
         SortNews, SortExprs, SortMatches, SortBundles, SortConnectives, SortUnforgeables;
    SendsKeep(p.sends);
    ReceivesKeep(p.receives);
    NewsKeep(p.news);
    ExprsKeep(p.exprs);
    MatchesKeep(p.matches);
    BundlesKeep(p.bundles);
    ConnectivesKeep(p.connectives);
    UnforgeablesKeep(p.unforgeables);
  }

  lemma {:induction false} SendsKeep(ss: seq<Send>)
    ensures multiset(OfSends(Terms(Sort(SortSends(ss))))) == multiset(OfSends(ss))
    decreases ss
  {
    hide OfSend, SortSend, Sort;
    forall i | 0 <= i < |ss| ensures OfSend(SortSend(ss[i]).term) == OfSend(ss[i]) { SendKeeps(ss[i]); }
    SortPermutes(SortSends(ss), OfSends(ss), OfSends(Terms(Sort(SortSends(ss)))));
  }

  lemma {:induction false} ReceivesKeep(rs: seq<Receive>)
    ensures multiset(OfReceives(Terms(Sort(SortReceives(rs))))) == multiset(OfReceives(rs))
    decreases rs
  {
    hide OfReceive, SortReceive, Sort;
    forall i | 0 <= i < |rs| ensures OfReceive(SortReceive(rs[i]).term) == OfReceive(rs[i]) { ReceiveKeeps(rs[i]); }
    SortPermutes(SortReceives(rs), OfReceives(rs), OfReceives(Terms(Sort(SortReceives(rs)))));
  }

  lemma {:induction false} NewsKeep(ns: seq<New>)
    ensures multiset(OfNews(Terms(Sort(SortNews(ns))))) == multiset(OfNews(ns))
    decreases ns
  {
    hide OfNew, SortNew, Sort;
    forall i | 0 <= i < |ns| ensures OfNew(SortNew(ns[i]).term) == OfNew(ns[i]) { NewKeeps(ns[i]); }
    SortPermutes(SortNews(ns), OfNews(ns), OfNews(Terms(Sort(SortNews(ns)))));
  }

  lemma {:induction false} ExprsKeep(es: seq<Expr>)
    ensures multiset(OfExprs(Terms(Sort(SortExprs(es))))) == multiset(OfExprs(es))
    decreases es
  {
    hide OfExpr, SortExpr, Sort;
    forall i | 0 <= i < |es| ensures OfExpr(SortExpr(es[i]).term) == OfExpr(es[i]) { ExprKeeps(es[i]); }
    SortPermutes(SortExprs(es), OfExprs(es), OfExprs(Terms(Sort(SortExprs(es)))));
  }

  lemma {:induction false} MatchesKeep(ms: seq<Match>)
    ensures multiset(OfMatches(Terms(Sort(SortMatches(ms))))) == multiset(OfMatches(ms))
    decreases ms
  {
    hide OfMatch, SortMatch, Sort;
    forall i | 0 <= i < |ms| ensures OfMatch(SortMatch(ms[i]).term) == OfMatch(ms[i]) { MatchKeeps(ms[i]); }
    SortPermutes(SortMatches(ms), OfMatches(ms), OfMatches(Terms(Sort(SortMatches(ms)))));
  }

  lemma {:induction false} BundlesKeep(bs: seq<Bundle>)
    ensures multiset(OfBundles(Terms(Sort(SortBundles(bs))))) == multiset(OfBundles(bs))
    decreases bs
  {
    hide OfBundle, SortBundle, Sort;
    forall i | 0 <= i < |bs| ensures OfBundle(SortBundle(bs[i]).term) == OfBundle(bs[i]) { BundleKeeps(bs[i]); }
    SortPermutes(SortBundles(bs), OfBundles(bs), OfBundles(Terms(Sort(SortBundles(bs)))));
  }

  lemma {:induction false} ConnectivesKeep(cs: seq<Connective>)
    ensures multiset(OfConnectives(Terms(Sort(SortConnectives(cs))))) == multiset(OfConnectives(cs))
    decreases cs
  {
    hide OfConnective, SortConnective, Sort;
    forall i | 0 <= i < |cs| ensures OfConnective(SortConnective(cs[i]).term) == OfConnective(cs[i]) { ConnectiveKeeps(cs[i]); }
    SortPermutes(SortConnectives(cs), OfConnectives(cs), OfConnectives(Terms(Sort(SortConnectives(cs)))));
  }

  lemma UnforgeablesKeep(us: seq<GUnforgeable>)
    ensures multiset(Terms(Sort(SortUnforgeables(us)))) == multiset(us)
  {
    hide Sort;
    forall i | 0 <= i < |us| ensures SortUnforgeable(us[i]).term == us[i] { }
    SortPermutes(SortUnforgeables(us), us, Terms(Sort(SortUnforgeables(us))));
  }

  lemma {:induction false} ParsKeep(ps: seq<Par>)
    ensures OfPars(Terms(SortPars(ps))) == OfPars(ps)
    decreases ps
  {
    hide OfPar, SortPar;
    forall i | 0 <= i < |ps| ensures OfPar(SortPar(ps[i]).term) == OfPar(ps[i]) { SortKeepsContent(ps[i]); }
  }

  lemma {:induction false} SendKeeps(s: Send)
    ensures OfSend(SortSend(s).term) == OfSend(s)
    decreases s
  {
    hide OfPar, SortPar, OfPars, SortPars;
    SortKeepsContent(s.chan);
    ParsKeep(s.data);
  }

  lemma {:induction false} BindKeeps(b: ReceiveBind)
    ensures OfBind(SortReceiveBind(b).term) == OfBind(b)
    decreases b
  {
    hide OfPar, SortPar, OfPars, SortPars;
    SortKeepsContent(b.source);
    ParsKeep(b.patterns);
  }

  lemma {:induction false} BindsKeep(bs: seq<ReceiveBind>)
    ensures OfBinds(Terms(SortReceiveBinds(bs))) == OfBinds(bs)
    decreases bs
  {
    hide OfBind, SortReceiveBind;
    forall i | 0 <= i < |bs| ensures OfBind(SortReceiveBind(bs[i]).term) == OfBind(bs[i]) { BindKeeps(bs[i]); }
  }

  lemma {:induction false} ReceiveKeeps(r: Receive)
    ensures OfReceive(SortReceive(r).term) == OfReceive(r)
    decreases r
  {
    hide OfPar, SortPar, OfBinds, SortReceiveBinds;
    SortKeepsContent(r.body);
    BindsKeep(r.binds);
  }

  lemma {:induction false} InjectionsKeep(ns: seq<Injection>)
    ensures OfInjections(Terms(SortInjections(ns))) == OfInjections(ns)
    decreases ns
  {
    hide OfPar, SortPar;
    forall i | 0 <= i < |ns| ensures OfInjection(SortInjection(ns[i]).term) == OfInjection(ns[i]) {
      SortKeepsContent(ns[i].value);
    }
  }

  lemma {:induction false} NewKeeps(n: New)
    ensures OfNew(SortNew(n).term) == OfNew(n)
    decreases n
  {
    hide OfPar, SortPar, OfInjections, SortInjections, Sort;
    SortKeepsContent(n.p);
    InjectionsKeep(n.injections);
    SortPermutes(ScoreUris(n.uri), n.uri, Terms(Sort(ScoreUris(n.uri))));
  }

  lemma {:induction false} CasesKeep(cs: seq<MatchCase>)
    ensures OfCases(Terms(SortMatchCases(cs))) == OfCases(cs)
    decreases cs
  {
    hide OfPar, SortPar;
    forall i | 0 <= i < |cs| ensures OfCase(SortMatchCase(cs[i]).term) == OfCase(cs[i]) { CaseKeeps(cs[i]); }
  }

  lemma {:induction false} CaseKeeps(c: MatchCase)
    ensures OfCase(SortMatchCase(c).term) == OfCase(c)
    decreases c
  {
    hide OfPar, SortPar;
    SortKeepsContent(c.pattern);
    SortKeepsContent(c.source);
  }

  lemma {:induction false} MatchKeeps(m: Match)
    ensures OfMatch(SortMatch(m).term) == OfMatch(m)
    decreases m
  {
    hide OfPar, SortPar, OfCases, SortMatchCases;
    SortKeepsContent(m.target);
    CasesKeep(m.cases);
  }

  lemma {:induction false} BundleKeeps(b: Bundle)
    ensures OfBundle(SortBundle(b).term) == OfBundle(b)
    decreases b
  {
    hide OfPar, SortPar;
    SortKeepsContent(b.body);
  }

  lemma {:induction false} KeyValuesKeep(kvs: seq<KeyValue>)
    ensures OfKeyValues(Terms(SortKeyValues(kvs))) == OfKeyValues(kvs)
    decreases kvs
  {
    hide OfPar, SortPar;
    forall i | 0 <= i < |kvs| ensures OfKeyValue(SortKeyValue(kvs[i]).term) == OfKeyValue(kvs[i]) { KeyValueKeeps(kvs[i]); }
  }

  lemma {:induction false} KeyValueKeeps(kv: KeyValue)
    ensures OfKeyValue(SortKeyValue(kv).term) == OfKeyValue(kv)
    decreases kv
  {
    hide OfPar, SortPar;
    SortKeepsContent(kv.key);
    SortKeepsContent(kv.value);
  }

  lemma {:induction false} ExprKeeps(e: Expr)
    ensures OfExpr(SortExpr(e).term) == OfExpr(e)
    decreases e
  {
    hide OfPar, SortPar, OfPars, SortPars, OfKeyValues, SortKeyValues;
    match e
    case ENot(p) => SortKeepsContent(p);
    case ENeg(p) => SortKeepsContent(p);
    case EBinary(_, p, q) =>
      SortKeepsContent(p);
      SortKeepsContent(q);
    case EList(ps, _, _) => ParsKeep(ps);
    case ETuple(ps, _) => ParsKeep(ps);
    case ESet(ps, _, _) => ParsKeep(ps);
    case EMap(kvs, _, _) => KeyValuesKeep(kvs);
    case EMethod(_, t, args, _) =>
      SortKeepsContent(t);
      ParsKeep(args);
    case _ =>
  }

  lemma {:induction false} ConnectiveKeeps(c: Connective)
    ensures OfConnective(SortConnective(c).term) == OfConnective(c)
    decreases c
  {
    hide OfPar, SortPar, OfPars, SortPars;
    match c
    case ConnAnd(ps) => ParsKeep(ps);
    case ConnOr(ps) => ParsKeep(ps);
    case ConnNot(p) => SortKeepsContent(p);
    case _ =>
  }

  // ----- equal content, equal score

  lemma {:induction false} SameContentSameScore(p: Par, q: Par)
    requires OfPar(p) == OfPar(q)
    ensures SortPar(p).score == SortPar(q).score
    decreases p, 0
  {
    hide Sort, OfSends, OfReceives, OfNews, OfExprs, OfMatches, OfBundles, OfConnectives, SortSends, SortReceives,
         SortNews, SortExprs, SortMatches, SortBundles, SortConnectives, SortUnforgeables, Flatten, NodeScore;
    SendsScore(p.sends, q.sends);
    ReceivesScore(p.receives, q.receives);
    NewsScore(p.news, q.news);
    ExprsScore(p.exprs, q.exprs);
    MatchesScore(p.matches, q.matches);
    BundlesScore(p.bundles, q.bundles);
    ConnectivesScore(p.connectives, q.connectives);
    UnforgeablesScore(p.unforgeables, q.unforgeables);
  }

  lemma {:induction false} SendsScore(ss: seq<Send>, ts: seq<Send>)
    requires multiset(OfSends(ss)) == multiset(OfSends(ts))
    ensures Scores(Sort(SortSends(ss))) == Scores(Sort(SortSends(ts)))
    decreases ss
  {
    hide OfSend, SortSend, Sort;
    var a, b := SortSends(ss), SortSends(ts);
    forall i, k | 0 <= i < |ss| && 0 <= k < |ts| && OfSends(ss)[i] == OfSends(ts)[k] ensures Scores(a)[i] == Scores(b)[k] {
      SendScore(ss[i], ts[k]);
    }
    ImagesPermute(OfSends(ss), OfSends(ts), Scores(a), Scores(b));
    SortedScoresOrderFree(a, b);
  }

  lemma {:induction false} ReceivesScore(rs: seq<Receive>, qs: seq<Receive>)
    requires multiset(OfReceives(rs)) == multiset(OfReceives(qs))
    ensures Scores(Sort(SortReceives(rs))) == Scores(Sort(SortReceives(qs)))
    decreases rs
  {
    hide OfReceive, SortReceive, Sort;
    var a, b := SortReceives(rs), SortReceives(qs);
    forall i, k | 0 <= i < |rs| && 0 <= k < |qs| && OfReceives(rs)[i] == OfReceives(qs)[k] ensures Scores(a)[i] == Scores(b)[k] {
      ReceiveScore(rs[i], qs[k]);
    }
    ImagesPermute(OfReceives(rs), OfReceives(qs), Scores(a), Scores(b));
    SortedScoresOrderFree(a, b);
  }

  lemma {:induction false} NewsScore(ns: seq<New>, ms: seq<New>)
    requires multiset(OfNews(ns)) == multiset(OfNews(ms))
    ensures Scores(Sort(SortNews(ns))) == Scores(Sort(SortNews(ms)))
    decreases ns
  {
    hide OfNew, SortNew, Sort;
    var a, b := SortNews(ns), SortNews(ms);
    forall i, k | 0 <= i < |ns| && 0 <= k < |ms| && OfNews(ns)[i] == OfNews(ms)[k] ensures Scores(a)[i] == Scores(b)[k] {
      NewScore(ns[i], ms[k]);
    }
    ImagesPermute(OfNews(ns), OfNews(ms), Scores(a), Scores(b));
    SortedScoresOrderFree(a, b);
  }

  lemma {:induction false} ExprsScore(es: seq<Expr>, ds: seq<Expr>)
    requires multiset(OfExprs(es)) == multiset(OfExprs(ds))
    ensures Scores(Sort(SortExprs(es))) == Scores(Sort(SortExprs(ds)))
    decreases es
  {
    hide OfExpr, SortExpr, Sort;
    var a, b := SortExprs(es), SortExprs(ds);
    forall i, k | 0 <= i < |es| && 0 <= k < |ds| && OfExprs(es)[i] == OfExprs(ds)[k] ensures Scores(a)[i] == Scores(b)[k] {
      ExprScore(es[i], ds[k]);
    }
    ImagesPermute(OfExprs(es), OfExprs(ds), Scores(a), Scores(b));
    SortedScoresOrderFree(a, b);
  }

  lemma {:induction false} MatchesScore(ms: seq<Match>, ns: seq<Match>)
    requires multiset(OfMatches(ms)) == multiset(OfMatches(ns))
    ensures Scores(Sort(SortMatches(ms))) == Scores(Sort(SortMatches(ns)))
    decreases ms
  {
    hide OfMatch, SortMatch, Sort;
    var a, b := SortMatches(ms), SortMatches(ns);
    forall i, k | 0 <= i < |ms| && 0 <= k < |ns| && OfMatches(ms)[i] == OfMatches(ns)[k] ensures Scores(a)[i] == Scores(b)[k] {
      MatchScore(ms[i], ns[k]);
    }
    ImagesPermute(OfMatches(ms), OfMatches(ns), Scores(a), Scores(b));
    SortedScoresOrderFree(a, b);
  }

  lemma {:induction false} BundlesScore(bs: seq<Bundle>, cs: seq<Bundle>)
    requires multiset(OfBundles(bs)) == multiset(OfBundles(cs))
    ensures Scores(Sort(SortBundles(bs))) == Scores(Sort(SortBundles(cs)))
    decreases bs
  {
    hide OfBundle, SortBundle, Sort;
    var a, b := SortBundles(bs), SortBundles(cs);
    forall i, k | 0 <= i < |bs| && 0 <= k < |cs| && OfBundles(bs)[i] == OfBundles(cs)[k] ensures Scores(a)[i] == Scores(b)[k] {
      BundleScore(bs[i], cs[k]);
    }
    ImagesPermute(OfBundles(bs), OfBundles(cs), Scores(a), Scores(b));
    SortedScoresOrderFree(a, b);
  }

  lemma {:induction false} ConnectivesScore(cs: seq<Connective>, ds: seq<Connective>)
    requires multiset(OfConnectives(cs)) == multiset(OfConnectives(ds))
    ensures Scores(Sort(SortConnectives(cs))) == Scores(Sort(SortConnectives(ds)))
    decreases cs
  {
    hide OfConnective, SortConnective, Sort;
    var a, b := SortConnectives(cs), SortConnectives(ds);
    forall i, k | 0 <= i < |cs| && 0 <= k < |ds| && OfConnectives(cs)[i] == OfConnectives(ds)[k] ensures Scores(a)[i] == Scores(b)[k] {
      ConnectiveScore(cs[i], ds[k]);
    }
    ImagesPermute(OfConnectives(cs), OfConnectives(ds), Scores(a), Scores(b));
    SortedScoresOrderFree(a, b);
  }

  lemma UnforgeablesScore(us: seq<GUnforgeable>, vs: seq<GUnforgeable>)
    requires multiset(us) == multiset(vs)
    ensures Scores(Sort(SortUnforgeables(us))) == Scores(Sort(SortUnforgeables(vs)))
  {
    hide Sort, SortUnforgeable;
    var a, b := SortUnforgeables(us), SortUnforgeables(vs);
    ImagesPermute(us, vs, Scores(a), Scores(b));
    SortedScoresOrderFree(a, b);
  }

  lemma {:induction false} ParsScore(ps: seq<Par>, qs: seq<Par>)
    requires OfPars(ps) == OfPars(qs)
    ensures Scores(SortPars(ps)) == Scores(SortPars(qs))
    decreases ps
  {
    hide OfPar, SortPar;
    assert |OfPars(ps)| == |ps| && |OfPars(qs)| == |qs|;
    forall i | 0 <= i < |ps| ensures SortPar(ps[i]).score == SortPar(qs[i]).score {
      assert OfPars(ps)[i] == OfPars(qs)[i];
      SameContentSameScore(ps[i], qs[i]);
    }
  }

  lemma {:induction false} SendScore(s: Send, t: Send)
    requires OfSend(s) == OfSend(t)
    ensures SortSend(s).score == SortSend(t).score
    decreases s
  {
    hide OfPar, SortPar, OfPars, SortPars, NodeScore;
    SameContentSameScore(s.chan, t.chan);
    ParsScore(s.data, t.data);
  }

  lemma {:induction false} BindScore(b: ReceiveBind, c: ReceiveBind)
    requires OfBind(b) == OfBind(c)
    ensures SortReceiveBind(b).score == SortReceiveBind(c).score
    decreases b
  {
    hide OfPar, SortPar, OfPars, SortPars;
    SameContentSameScore(b.source, c.source);
    ParsScore(b.patterns, c.patterns);
  }

  lemma {:induction false} BindsScore(bs: seq<ReceiveBind>, cs: seq<ReceiveBind>)
    requires OfBinds(bs) == OfBinds(cs)
    ensures Scores(SortReceiveBinds(bs)) == Scores(SortReceiveBinds(cs))
    decreases bs
  {
    hide OfBind, SortReceiveBind;
    assert |OfBinds(bs)| == |bs| && |OfBinds(cs)| == |cs|;
    forall i | 0 <= i < |bs| ensures SortReceiveBind(bs[i]).score == SortReceiveBind(cs[i]).score {
      assert OfBinds(bs)[i] == OfBinds(cs)[i];
      BindScore(bs[i], cs[i]);
    }
  }

  lemma {:induction false} ReceiveScore(r: Receive, q: Receive)
    requires OfReceive(r) == OfReceive(q)
    ensures SortReceive(r).score == SortReceive(q).score
    decreases r
  {
    hide OfPar, SortPar, OfBinds, SortReceiveBinds, NodeScore;
    SameContentSameScore(r.body, q.body);
    BindsScore(r.binds, q.binds);
  }

  lemma {:induction false} InjectionsScore(ns: seq<Injection>, ms: seq<Injection>)
    requires OfInjections(ns) == OfInjections(ms)
    ensures Scores(SortInjections(ns)) == Scores(SortInjections(ms))
    decreases ns
  {
    hide OfPar, SortPar;
    assert |OfInjections(ns)| == |ns| && |OfInjections(ms)| == |ms|;
    forall i | 0 <= i < |ns| ensures SortInjection(ns[i]).score == SortInjection(ms[i]).score {
      assert OfInjections(ns)[i] == OfInjections(ms)[i];
      SameContentSameScore(ns[i].value, ms[i].value);
    }
  }

  lemma {:induction false} NewScore(n: New, m: New)
    requires OfNew(n) == OfNew(m)
    ensures SortNew(n).score == SortNew(m).score
    decreases n
  {
    hide OfPar, SortPar, OfInjections, SortInjections, Sort, NodeScore;
    SameContentSameScore(n.p, m.p);
    InjectionsScore(n.injections, m.injections);
    var a, b := ScoreUris(n.uri), ScoreUris(m.uri);
    ImagesPermute(n.uri, m.uri, Scores(a), Scores(b));
    SortedScoresOrderFree(a, b);
  }

  lemma {:induction false} CasesScore(cs: seq<MatchCase>, ds: seq<MatchCase>)
    requires OfCases(cs) == OfCases(ds)
    ensures Scores(SortMatchCases(cs)) == Scores(SortMatchCases(ds))
    decreases cs
  {
    hide OfPar, SortPar;
    assert |OfCases(cs)| == |cs| && |OfCases(ds)| == |ds|;
    forall i | 0 <= i < |cs| ensures SortMatchCase(cs[i]).score == SortMatchCase(ds[i]).score {
      assert OfCases(cs)[i] == OfCases(ds)[i];
      CaseScore(cs[i], ds[i]);
    }
  }

  lemma {:induction false} CaseScore(c: MatchCase, d: MatchCase)
    requires OfCase(c) == OfCase(d)
    ensures SortMatchCase(c).score == SortMatchCase(d).score
    decreases c
  {
    hide OfPar, SortPar;
    SameContentSameScore(c.pattern, d.pattern);
    SameContentSameScore(c.source, d.source);
  }

  lemma {:induction false} MatchScore(m: Match, n: Match)
    requires OfMatch(m) == OfMatch(n)
    ensures SortMatch(m).score == SortMatch(n).score
    decreases m
  {
    hide OfPar, SortPar, OfCases, SortMatchCases, NodeScore;
    SameContentSameScore(m.target, n.target);
    CasesScore(m.cases, n.cases);
  }

  lemma {:induction false} BundleScore(b: Bundle, c: Bundle)
    requires OfBundle(b) == OfBundle(c)
    ensures SortBundle(b).score == SortBundle(c).score
    decreases b
  {
    hide OfPar, SortPar;
    SameContentSameScore(b.body, c.body);
  }

  lemma {:induction false} KeyValuesScore(kvs: seq<KeyValue>, ls: seq<KeyValue>)
    requires OfKeyValues(kvs) == OfKeyValues(ls)
    ensures Scores(SortKeyValues(kvs)) == Scores(SortKeyValues(ls))
    decreases kvs
  {
    hide OfPar, SortPar;
    assert |OfKeyValues(kvs)| == |kvs| && |OfKeyValues(ls)| == |ls|;
    forall i | 0 <= i < |kvs| ensures SortKeyValue(kvs[i]).score == SortKeyValue(ls[i]).score {
      assert OfKeyValues(kvs)[i] == OfKeyValues(ls)[i];
      KeyValueScore(kvs[i], ls[i]);
    }
  }

  lemma {:induction false} KeyValueScore(kv: KeyValue, l: KeyValue)
    requires OfKeyValue(kv) == OfKeyValue(l)
    ensures SortKeyValue(kv).score == SortKeyValue(l).score
    decreases kv
  {
    hide OfPar, SortPar;
    SameContentSameScore(kv.key, l.key);
  }

  lemma {:induction false} ExprScore(e: Expr, d: Expr)
    requires OfExpr(e) == OfExpr(d)
    ensures SortExpr(e).score == SortExpr(d).score
    decreases e
  {
    hide OfPar, SortPar, OfPars, SortPars, OfKeyValues, SortKeyValues, NodeScore;
    match e
    case ENot(p) => SameContentSameScore(p, d.p);
    case ENeg(p) => SameContentSameScore(p, d.p);
    case EBinary(_, p, q) =>
      SameContentSameScore(p, d.left);
      SameContentSameScore(q, d.right);
    case EList(ps, _, _) => ParsScore(ps, d.ps);
    case ETuple(ps, _) => ParsScore(ps, d.ps);
    case ESet(ps, _, _) => ParsScore(ps, d.ps);
    case EMap(kvs, _, _) => KeyValuesScore(kvs, d.kvs);
    case EMethod(_, t, args, _) =>
      SameContentSameScore(t, d.target);
      ParsScore(args, d.arguments);
    case _ =>
  }

  lemma {:induction false} ConnectiveScore(c: Connective, d: Connective)
    requires OfConnective(c) == OfConnective(d)
    ensures SortConnective(c).score == SortConnective(d).score
    decreases c
  {
    hide OfPar, SortPar, OfPars, SortPars, NodeScore;
    match c
    case ConnAnd(ps) => ParsScore(ps, d.ps);
    case ConnOr(ps) => ParsScore(ps, d.ps);
    case ConnNot(p) => SameContentSameScore(p, d.p);
    case _ =>
  }

  // ----- what canonical form decides

  /** Terms with the same canonical form have the same content, whatever the terms. */
  lemma SameFormSameContent(p: Par, q: Par)
    requires SortPar(p).term == SortPar(q).term
    ensures OfPar(p) == OfPar(q)
  {
    hide SortPar, OfPar;
    SortKeepsContent(p);
    SortKeepsContent(q);
  }

  /** On the faithful fragment canonical form decides equality up to the order of parallel components, at every depth. */
  lemma FormDecidesContent(fc: FreeCounter, p: Par, q: Par)
    requires FaithfulPar(fc, p) && FaithfulPar(fc, q)
    ensures SortPar(p).term == SortPar(q).term <==> OfPar(p) == OfPar(q)
  {
    hide SortPar, OfPar, FaithfulPar;
    if OfPar(p) == OfPar(q) {
      SameContentSameScore(p, q);
      ScoreIdentifiesTerm(fc, p, q);
    }
    if SortPar(p).term == SortPar(q).term {
      SameFormSameContent(p, q);
    }
  }
}
