/** When equal scores mean equal canonical terms. The score omits the values of a
    map expression and the free count of a receive bind, and gives an empty-variable
    bind remainder the score of no remainder. On terms without the first and the
    last, and with free counts that are some fixed function of the canonical
    patterns and remainder, the score is injective: a mutual induction over the
    whole syntax, whose core is that the tags of the eight fields cut the child list of
    a `Par` apart again. */
module SorterInjective {
  import opened Orders
  import opened ScoreTree
  import opened StableSort
  import opened Ast
  import opened Sorter

  /** How many variables a bind's patterns and remainder are taken to bind. */
  type FreeCounter = (seq<Par>, Option<Var>) -> int

  // ----- the fragment on which the score is faithful

  predicate FaithfulPar(fc: FreeCounter, p: Par)
    decreases p
  {
    && FaithfulSends(fc, p.sends)
    && FaithfulReceives(fc, p.receives)
    && FaithfulNews(fc, p.news)
    && FaithfulExprs(fc, p.exprs)
    && FaithfulMatches(fc, p.matches)
    && FaithfulBundles(fc, p.bundles)
    && FaithfulConnectives(fc, p.connectives)
  }

  predicate FaithfulSend(fc: FreeCounter, s: Send)
    decreases s
  {
    FaithfulPar(fc, s.chan) && FaithfulPars(fc, s.data)
  }

  predicate FaithfulReceiveBind(fc: FreeCounter, b: ReceiveBind)
    decreases b
  {
    && FaithfulPars(fc, b.patterns)
    && FaithfulPar(fc, b.source)
    && b.remainder != Some(EmptyVar)
    && b.freeCount == fc(Terms(SortPars(b.patterns)), b.remainder)
  }

  predicate FaithfulReceive(fc: FreeCounter, r: Receive)
    decreases r
  {
    FaithfulReceiveBinds(fc, r.binds) && FaithfulPar(fc, r.body)
  }

  predicate FaithfulInjection(fc: FreeCounter, n: Injection)
    decreases n
  {
    FaithfulPar(fc, n.value)
  }

  predicate FaithfulNew(fc: FreeCounter, n: New)
    decreases n
  {
    FaithfulPar(fc, n.p) && FaithfulInjections(fc, n.injections)
  }

  predicate FaithfulMatchCase(fc: FreeCounter, c: MatchCase)
    decreases c
  {
    FaithfulPar(fc, c.pattern) && FaithfulPar(fc, c.source)
  }

  predicate FaithfulMatch(fc: FreeCounter, m: Match)
    decreases m
  {
    FaithfulPar(fc, m.target) && FaithfulMatchCases(fc, m.cases)
  }

  predicate FaithfulBundle(fc: FreeCounter, b: Bundle)
    decreases b
  {
    FaithfulPar(fc, b.body)
  }

  predicate FaithfulExpr(fc: FreeCounter, e: Expr)
    decreases e
  {
    match e
    case ENot(p) => FaithfulPar(fc, p)
    case ENeg(p) => FaithfulPar(fc, p)
    case EBinary(_, p, q) => FaithfulPar(fc, p) && FaithfulPar(fc, q)
    case EList(ps, _, _) => FaithfulPars(fc, ps)
    case ETuple(ps, _) => FaithfulPars(fc, ps)
    case ESet(ps, _, _) => FaithfulPars(fc, ps)
    case EMap(_, _, _) => false
    case EMethod(_, t, args, _) => FaithfulPar(fc, t) && FaithfulPars(fc, args)
    case _ => true
  }

  predicate FaithfulConnective(fc: FreeCounter, c: Connective)
    decreases c
  {
    match c
    case ConnAnd(ps) => FaithfulPars(fc, ps)
    case ConnOr(ps) => FaithfulPars(fc, ps)
    case ConnNot(p) => FaithfulPar(fc, p)
    case _ => true
  }

  predicate FaithfulPars(fc: FreeCounter, ps: seq<Par>)
    decreases ps
  {
    forall i | 0 <= i < |ps| :: FaithfulPar(fc, ps[i])
  }

  predicate FaithfulSends(fc: FreeCounter, ss: seq<Send>)
    decreases ss
  {
    forall i | 0 <= i < |ss| :: FaithfulSend(fc, ss[i])
  }

  predicate FaithfulReceiveBinds(fc: FreeCounter, bs: seq<ReceiveBind>)
    decreases bs
  {
    forall i | 0 <= i < |bs| :: FaithfulReceiveBind(fc, bs[i])
  }

  predicate FaithfulReceives(fc: FreeCounter, rs: seq<Receive>)
    decreases rs
  {
    forall i | 0 <= i < |rs| :: FaithfulReceive(fc, rs[i])
  }

  predicate FaithfulInjections(fc: FreeCounter, ns: seq<Injection>)
    decreases ns
  {
    forall i | 0 <= i < |ns| :: FaithfulInjection(fc, ns[i])
  }

  predicate FaithfulNews(fc: FreeCounter, ns: seq<New>)
    decreases ns
  {
    forall i | 0 <= i < |ns| :: FaithfulNew(fc, ns[i])
  }

  predicate FaithfulExprs(fc: FreeCounter, es: seq<Expr>)
    decreases es
  {
    forall i | 0 <= i < |es| :: FaithfulExpr(fc, es[i])
  }

  predicate FaithfulMatchCases(fc: FreeCounter, cs: seq<MatchCase>)
    decreases cs
  {
    forall i | 0 <= i < |cs| :: FaithfulMatchCase(fc, cs[i])
  }

  predicate FaithfulMatches(fc: FreeCounter, ms: seq<Match>)
    decreases ms
  {
    forall i | 0 <= i < |ms| :: FaithfulMatch(fc, ms[i])
  }

  predicate FaithfulBundles(fc: FreeCounter, bs: seq<Bundle>)
    decreases bs
  {
    forall i | 0 <= i < |bs| :: FaithfulBundle(fc, bs[i])
  }

  predicate FaithfulConnectives(fc: FreeCounter, cs: seq<Connective>)
    decreases cs
  {
    forall i | 0 <= i < |cs| :: FaithfulConnective(fc, cs[i])
  }

  // ----- cutting child lists apart

  lemma Sandwich(pre1: seq<Tree>, mid1: seq<Tree>, post1: seq<Tree>, pre2: seq<Tree>, mid2: seq<Tree>, post2: seq<Tree>)
    requires |pre1| == |pre2| && |post1| == |post2|
    requires pre1 + mid1 + post1 == pre2 + mid2 + post2
    ensures pre1 == pre2 && mid1 == mid2 && post1 == post2
  {
    var all1, all2 := pre1 + mid1 + post1, pre2 + mid2 + post2;
    assert pre1 == all1[..|pre1|] && pre2 == all2[..|pre1|];
    assert mid1 == all1[|pre1|..|all1| - |post1|] && mid2 == all2[|pre1|..|all2| - |post1|];
    assert post1 == all1[|all1| - |post1|..] && post2 == all2[|all2| - |post1|..];
  }

  lemma NodeScoreInjective(tag1: int, cs1: seq<Tree>, tag2: int, cs2: seq<Tree>)
    requires NodeScore(tag1, cs1) == NodeScore(tag2, cs2)
    ensures tag1 == tag2 && cs1 == cs2
  {
    assert ([Int(tag1)] + cs1)[0] == ([Int(tag2)] + cs2)[0];
    assert cs1 == ([Int(tag1)] + cs1)[1..] && cs2 == ([Int(tag2)] + cs2)[1..];
  }

  /** Lists told apart by `inFirst` can be split again. */
  lemma SplitAgain(a: seq<Tree>, b: seq<Tree>, c: seq<Tree>, d: seq<Tree>, inFirst: Tree -> bool)
    requires a + b == c + d
    requires forall i :: 0 <= i < |a| ==> inFirst(a[i])
    requires forall i :: 0 <= i < |c| ==> inFirst(c[i])
    requires forall i :: 0 <= i < |b| ==> !inFirst(b[i])
    requires forall i :: 0 <= i < |d| ==> !inFirst(d[i])
    ensures a == c && b == d
  {
    var x, y := a + b, c + d;
    var n := if |a| <= |c| then |a| else |c|;
    assert n < |x| ==> (inFirst(x[n]) <==> n < |a|);
    assert n < |y| ==> (inFirst(y[n]) <==> n < |c|);
    assert |a| == |c|;
    assert a == x[..|a|] && c == y[..|a|] && b == x[|a|..] && d == y[|a|..];
  }

  /** Position of the `Par` field whose elements carry this score, read off its tag. */
  function FieldOf(t: Tree): int {
    match t
    case Leaf(_) => 6
    case Node(cs) =>
      if cs == [] || !cs[0].Leaf? || !cs[0].atom.IntAtom? then -1
      else
        var tag := cs[0].atom.i;
        if tag == SEND then 0
        else if tag == RECEIVE then 1
        else if tag == NEW then 3
        else if tag == MATCH then 4
        else if BUNDLE_EQUIV <= tag <= BUNDLE_READ_WRITE then 5
        else if CONNECTIVE_NOT <= tag <= CONNECTIVE_BIG_INT then 6
        else if tag == PRIVATE || tag == ABSENT || DEPLOYER_AUTH <= tag <= SYS_AUTH_TOKEN then 7
        else 2
  }

  predicate AllInField(ts: seq<Tree>, k: int) {
    forall i :: 0 <= i < |ts| ==> FieldOf(ts[i]) == k
  }

  lemma FlattenField(xss: seq<seq<Tree>>, k: int)
    requires forall i :: 0 <= i < |xss| ==> AllInField(xss[i], k + i)
    ensures forall i :: 0 <= i < |Flatten(xss)| ==> FieldOf(Flatten(xss)[i]) >= k
    decreases |xss|
  {
    if xss != [] {
      var rest := xss[1..];
      forall i | 0 <= i < |rest| ensures AllInField(rest[i], k + 1 + i) {
        assert rest[i] == xss[i + 1] && AllInField(xss[i + 1], k + (i + 1));
      }
      FlattenField(rest, k + 1);
      assert AllInField(xss[0], k + 0);
    }
  }

  /** A list of segments whose elements name their own segment is determined by its concatenation. */
  lemma {:induction false} FlattenInjective(xss: seq<seq<Tree>>, yss: seq<seq<Tree>>, k: int)
    requires |xss| == |yss| && Flatten(xss) == Flatten(yss)
    requires forall i :: 0 <= i < |xss| ==> AllInField(xss[i], k + i)
    requires forall i :: 0 <= i < |yss| ==> AllInField(yss[i], k + i)
    ensures xss == yss
    decreases |xss|
  {
    if xss != [] {
      var xs, ys := xss[1..], yss[1..];
      forall i | 0 <= i < |xs| ensures AllInField(xs[i], k + 1 + i) && AllInField(ys[i], k + 1 + i) {
        assert xs[i] == xss[i + 1] && AllInField(xss[i + 1], k + (i + 1));
        assert ys[i] == yss[i + 1] && AllInField(yss[i + 1], k + (i + 1));
      }
      FlattenField(xs, k + 1);
      FlattenField(ys, k + 1);
      assert AllInField(xss[0], k + 0) && AllInField(yss[0], k + 0);
      SplitAgain(xss[0], Flatten(xs), yss[0], Flatten(ys), t => FieldOf(t) == k);
      FlattenInjective(xs, ys, k + 1);
      assert xss == [xss[0]] + xs && yss == [yss[0]] + ys;
    }
  }

  // ----- variables

  lemma VarInjective(v: Var, w: Var)
    requires ScoreVar(v) == ScoreVar(w)
    ensures v == w
  {
    if !v.EmptyVar? && !w.EmptyVar? {
      var cs, ds := ScoreVar(v).children, ScoreVar(w).children;
      assert cs[0] == ds[0];
      if |cs| == 2 { assert cs[1] == ds[1]; }
    }
  }

  lemma RemainderInjective(r: Option<Var>, s: Option<Var>)
    requires RemainderScore(r) == RemainderScore(s)
    ensures r == s
  {
    if r.Some? && s.Some? { VarInjective(r.value, s.value); }
  }

  lemma BindRemainderInjective(r: Option<Var>, s: Option<Var>)
    requires r != Some(EmptyVar) && s != Some(EmptyVar)
    requires BindRemainderScore(r) == BindRemainderScore(s)
    ensures r == s
  {
    if r.Some? && s.Some? { VarInjective(r.value, s.value); }
  }

  // ----- the induction

  lemma {:induction false} ParsInjective(fc: FreeCounter, ps: seq<Par>, qs: seq<Par>)
    requires FaithfulPars(fc, ps) && FaithfulPars(fc, qs)
    requires Scores(SortPars(ps)) == Scores(SortPars(qs))
    ensures SortPars(ps) == SortPars(qs)
    decreases ps, 0
  {
    hide SortPar, FaithfulPar;
    assert |ps| == |Scores(SortPars(ps))| == |qs|;
    forall i | 0 <= i < |ps| ensures SortPar(ps[i]) == SortPar(qs[i]) {
      assert Scores(SortPars(ps))[i] == Scores(SortPars(qs))[i];
      ParInjective(fc, ps[i], qs[i]);
    }
  }

  lemma {:induction false} ReceiveBindsInjective(fc: FreeCounter, xs: seq<ReceiveBind>, ys: seq<ReceiveBind>)
    requires FaithfulReceiveBinds(fc, xs) && FaithfulReceiveBinds(fc, ys)
    requires Scores(SortReceiveBinds(xs)) == Scores(SortReceiveBinds(ys))
    ensures SortReceiveBinds(xs) == SortReceiveBinds(ys)
    decreases xs, 0
  {
    hide SortReceiveBind, FaithfulReceiveBind;
    assert |xs| == |Scores(SortReceiveBinds(xs))| == |ys|;
    forall i | 0 <= i < |xs| ensures SortReceiveBind(xs[i]) == SortReceiveBind(ys[i]) {
      assert Scores(SortReceiveBinds(xs))[i] == Scores(SortReceiveBinds(ys))[i];
      ReceiveBindInjective(fc, xs[i], ys[i]);
    }
  }

  lemma {:induction false} InjectionsInjective(fc: FreeCounter, ms: seq<Injection>, ns: seq<Injection>)
    requires FaithfulInjections(fc, ms) && FaithfulInjections(fc, ns)
    requires Scores(SortInjections(ms)) == Scores(SortInjections(ns))
    ensures SortInjections(ms) == SortInjections(ns)
    decreases ms, 0
  {
    hide SortInjection, FaithfulInjection;
    assert |ms| == |Scores(SortInjections(ms))| == |ns|;
    forall i | 0 <= i < |ms| ensures SortInjection(ms[i]) == SortInjection(ns[i]) {
      assert Scores(SortInjections(ms))[i] == Scores(SortInjections(ns))[i];
      InjectionInjective(fc, ms[i], ns[i]);
    }
  }

  lemma {:induction false} MatchCasesInjective(fc: FreeCounter, cs: seq<MatchCase>, ds: seq<MatchCase>)
    requires FaithfulMatchCases(fc, cs) && FaithfulMatchCases(fc, ds)
    requires Scores(SortMatchCases(cs)) == Scores(SortMatchCases(ds))
    ensures SortMatchCases(cs) == SortMatchCases(ds)
    decreases cs, 0
  {
    hide SortMatchCase, FaithfulMatchCase;
    assert |cs| == |Scores(SortMatchCases(cs))| == |ds|;
    forall i | 0 <= i < |cs| ensures SortMatchCase(cs[i]) == SortMatchCase(ds[i]) {
      assert Scores(SortMatchCases(cs))[i] == Scores(SortMatchCases(ds))[i];
      MatchCaseInjective(fc, cs[i], ds[i]);
    }
  }

  lemma {:induction false} SendsInjective(fc: FreeCounter, ss: seq<Send>, ts: seq<Send>)
    requires FaithfulSends(fc, ss) && FaithfulSends(fc, ts)
    requires Scores(Sort(SortSends(ss))) == Scores(Sort(SortSends(ts)))
    ensures Sort(SortSends(ss)) == Sort(SortSends(ts))
    decreases ss, 0
  {
    hide SortSend, FaithfulSend, Sort;
    var a, b := Sort(SortSends(ss)), Sort(SortSends(ts));
    assert |a| == |Scores(a)| == |b|;
    forall i | 0 <= i < |a| ensures a[i] == b[i] {
      var k := SortOrigin(SortSends(ss), i);
      var l := SortOrigin(SortSends(ts), i);
      assert Scores(a)[i] == Scores(b)[i];
      SendInjective(fc, ss[k], ts[l]);
    }
  }

  lemma {:induction false} ReceivesInjective(fc: FreeCounter, rs: seq<Receive>, qs: seq<Receive>)
    requires FaithfulReceives(fc, rs) && FaithfulReceives(fc, qs)
    requires Scores(Sort(SortReceives(rs))) == Scores(Sort(SortReceives(qs)))
    ensures Sort(SortReceives(rs)) == Sort(SortReceives(qs))
    decreases rs, 0
  {
    hide SortReceive, FaithfulReceive, Sort;
    var a, b := Sort(SortReceives(rs)), Sort(SortReceives(qs));
    assert |a| == |Scores(a)| == |b|;
    forall i | 0 <= i < |a| ensures a[i] == b[i] {
      var k := SortOrigin(SortReceives(rs), i);
      var l := SortOrigin(SortReceives(qs), i);
      assert Scores(a)[i] == Scores(b)[i];
      ReceiveInjective(fc, rs[k], qs[l]);
    }
  }

  lemma {:induction false} ExprsInjective(fc: FreeCounter, es: seq<Expr>, ds: seq<Expr>)
    requires FaithfulExprs(fc, es) && FaithfulExprs(fc, ds)
    requires Scores(Sort(SortExprs(es))) == Scores(Sort(SortExprs(ds)))
    ensures Sort(SortExprs(es)) == Sort(SortExprs(ds))
    decreases es, 0
  {
    hide SortExpr, FaithfulExpr, Sort;
    var a, b := Sort(SortExprs(es)), Sort(SortExprs(ds));
    assert |a| == |Scores(a)| == |b|;
    forall i | 0 <= i < |a| ensures a[i] == b[i] {
      var k := SortOrigin(SortExprs(es), i);
      var l := SortOrigin(SortExprs(ds), i);
      assert Scores(a)[i] == Scores(b)[i];
      ExprInjective(fc, es[k], ds[l]);
    }
  }

  lemma {:induction false} NewsInjective(fc: FreeCounter, ns: seq<New>, ms: seq<New>)
    requires FaithfulNews(fc, ns) && FaithfulNews(fc, ms)
    requires Scores(Sort(SortNews(ns))) == Scores(Sort(SortNews(ms)))
    ensures Sort(SortNews(ns)) == Sort(SortNews(ms))
    decreases ns, 0
  {
    hide SortNew, FaithfulNew, Sort;
    var a, b := Sort(SortNews(ns)), Sort(SortNews(ms));
    assert |a| == |Scores(a)| == |b|;
    forall i | 0 <= i < |a| ensures a[i] == b[i] {
      var k := SortOrigin(SortNews(ns), i);
      var l := SortOrigin(SortNews(ms), i);
      assert Scores(a)[i] == Scores(b)[i];
      NewInjective(fc, ns[k], ms[l]);
    }
  }

  lemma {:induction false} MatchesInjective(fc: FreeCounter, ms: seq<Match>, ns: seq<Match>)
    requires FaithfulMatches(fc, ms) && FaithfulMatches(fc, ns)
    requires Scores(Sort(SortMatches(ms))) == Scores(Sort(SortMatches(ns)))
    ensures Sort(SortMatches(ms)) == Sort(SortMatches(ns))
    decreases ms, 0
  {
    hide SortMatch, FaithfulMatch, Sort;
    var a, b := Sort(SortMatches(ms)), Sort(SortMatches(ns));
    assert |a| == |Scores(a)| == |b|;
    forall i | 0 <= i < |a| ensures a[i] == b[i] {
      var k := SortOrigin(SortMatches(ms), i);
      var l := SortOrigin(SortMatches(ns), i);
      assert Scores(a)[i] == Scores(b)[i];
      MatchInjective(fc, ms[k], ns[l]);
    }
  }

  lemma {:induction false} BundlesInjective(fc: FreeCounter, bs: seq<Bundle>, cs: seq<Bundle>)
    requires FaithfulBundles(fc, bs) && FaithfulBundles(fc, cs)
    requires Scores(Sort(SortBundles(bs))) == Scores(Sort(SortBundles(cs)))
    ensures Sort(SortBundles(bs)) == Sort(SortBundles(cs))
    decreases bs, 0
  {
    hide SortBundle, FaithfulBundle, Sort;
    var a, b := Sort(SortBundles(bs)), Sort(SortBundles(cs));
    assert |a| == |Scores(a)| == |b|;
    forall i | 0 <= i < |a| ensures a[i] == b[i] {
      var k := SortOrigin(SortBundles(bs), i);
      var l := SortOrigin(SortBundles(cs), i);
      assert Scores(a)[i] == Scores(b)[i];
      BundleInjective(fc, bs[k], cs[l]);
    }
  }

  lemma {:induction false} ConnectivesInjective(fc: FreeCounter, cs: seq<Connective>, ds: seq<Connective>)
    requires FaithfulConnectives(fc, cs) && FaithfulConnectives(fc, ds)
    requires Scores(Sort(SortConnectives(cs))) == Scores(Sort(SortConnectives(ds)))
    ensures Sort(SortConnectives(cs)) == Sort(SortConnectives(ds))
    decreases cs, 0
  {
    hide SortConnective, FaithfulConnective, Sort;
    var a, b := Sort(SortConnectives(cs)), Sort(SortConnectives(ds));
    assert |a| == |Scores(a)| == |b|;
    forall i | 0 <= i < |a| ensures a[i] == b[i] {
      var k := SortOrigin(SortConnectives(cs), i);
      var l := SortOrigin(SortConnectives(ds), i);
      assert Scores(a)[i] == Scores(b)[i];
      ConnectiveInjective(fc, cs[k], ds[l]);
    }
  }

  lemma {:induction false} SendInjective(fc: FreeCounter, s: Send, t: Send)
    requires FaithfulSend(fc, s) && FaithfulSend(fc, t)
    requires SortSend(s).score == SortSend(t).score
    ensures SortSend(s) == SortSend(t)
    decreases s
  {
    hide SortPar, SortPars, FaithfulPar, FaithfulPars;
    var c, d := SortPars(s.data), SortPars(t.data);
    var pre1, pre2 := [Flag(s.persistent), SortPar(s.chan).score], [Flag(t.persistent), SortPar(t.chan).score];
    NodeScoreInjective(SEND, pre1 + Scores(c) + [Flag(s.connectiveUsed)], SEND, pre2 + Scores(d) + [Flag(t.connectiveUsed)]);
    Sandwich(pre1, Scores(c), [Flag(s.connectiveUsed)], pre2, Scores(d), [Flag(t.connectiveUsed)]);
    assert pre1[0] == pre2[0] && pre1[1] == pre2[1];
    assert [Flag(s.connectiveUsed)][0] == [Flag(t.connectiveUsed)][0];
    ParInjective(fc, s.chan, t.chan);
    ParsInjective(fc, s.data, t.data);
  }

  lemma {:induction false} ReceiveBindInjective(fc: FreeCounter, a: ReceiveBind, b: ReceiveBind)
    requires FaithfulReceiveBind(fc, a) && FaithfulReceiveBind(fc, b)
    requires SortReceiveBind(a).score == SortReceiveBind(b).score
    ensures SortReceiveBind(a) == SortReceiveBind(b)
    decreases a
  {
    hide SortPar, SortPars, FaithfulPar, FaithfulPars;
    var c, d := Scores(SortPars(a.patterns)), Scores(SortPars(b.patterns));
    var x, y := BindRemainderScore(a.remainder), BindRemainderScore(b.remainder);
    Sandwich([SortPar(a.source).score], c, [x], [SortPar(b.source).score], d, [y]);
    assert [SortPar(a.source).score][0] == [SortPar(b.source).score][0] && [x][0] == [y][0];
    ParInjective(fc, a.source, b.source);
    ParsInjective(fc, a.patterns, b.patterns);
    BindRemainderInjective(a.remainder, b.remainder);
  }

  lemma {:induction false} ReceiveInjective(fc: FreeCounter, r: Receive, q: Receive)
    requires FaithfulReceive(fc, r) && FaithfulReceive(fc, q)
    requires SortReceive(r).score == SortReceive(q).score
    ensures SortReceive(r) == SortReceive(q)
    decreases r
  {
    hide SortPar, SortReceiveBinds, FaithfulPar, FaithfulReceiveBinds;
    var c, d := Scores(SortReceiveBinds(r.binds)), Scores(SortReceiveBinds(q.binds));
    var pre1, pre2 := [Flag(r.persistent), Flag(r.peek)], [Flag(q.persistent), Flag(q.peek)];
    var post1 := [SortPar(r.body).score, Int(r.bindCount), Flag(r.connectiveUsed)];
    var post2 := [SortPar(q.body).score, Int(q.bindCount), Flag(q.connectiveUsed)];
    NodeScoreInjective(RECEIVE, pre1 + c + post1, RECEIVE, pre2 + d + post2);
    Sandwich(pre1, c, post1, pre2, d, post2);
    assert pre1[0] == pre2[0] && pre1[1] == pre2[1];
    assert post1[0] == post2[0] && post1[1] == post2[1] && post1[2] == post2[2];
    ReceiveBindsInjective(fc, r.binds, q.binds);
    ParInjective(fc, r.body, q.body);
  }

  lemma {:induction false} InjectionInjective(fc: FreeCounter, n: Injection, m: Injection)
    requires FaithfulInjection(fc, n) && FaithfulInjection(fc, m)
    requires SortInjection(n).score == SortInjection(m).score
    ensures SortInjection(n) == SortInjection(m)
    decreases n
  {
    hide SortPar, FaithfulPar;
    var c, d := SortInjection(n).score.children, SortInjection(m).score.children;
    assert c[0] == d[0] && c[1] == d[1];
    ParInjective(fc, n.value, m.value);
  }

  predicate IsStr(t: Tree) { t.Leaf? && t.atom.StrAtom? }

  /** The uri and injection scores of a `new`, each replaced by one zero leaf when absent, can be told apart. */
  lemma NewChildrenSplit(u: seq<Tree>, i: seq<Tree>, v: seq<Tree>, k: seq<Tree>)
    requires forall x :: 0 <= x < |u| ==> IsStr(u[x])
    requires forall x :: 0 <= x < |v| ==> IsStr(v[x])
    requires forall x :: 0 <= x < |i| ==> i[x].Node?
    requires forall x :: 0 <= x < |k| ==> k[x].Node?
    requires OrAbsent(u) + OrAbsent(i) == OrAbsent(v) + OrAbsent(k)
    ensures u == v && i == k
  {
    var left, right := OrAbsent(u) + OrAbsent(i), OrAbsent(v) + OrAbsent(k);
    assert left[0] == OrAbsent(u)[0] && right[0] == OrAbsent(v)[0];
    if u == [] || v == [] {
      assert OrAbsent(i) == left[1..] && OrAbsent(k) == right[1..];
    } else {
      SplitAgain(u, OrAbsent(i), v, OrAbsent(k), IsStr);
    }
    assert OrAbsent(i) == OrAbsent(k);
  }

  lemma UriScores(uris: seq<string>)
    ensures forall i :: 0 <= i < |Sort(ScoreUris(uris))| ==>
              Sort(ScoreUris(uris))[i].score == Str(Sort(ScoreUris(uris))[i].term)
  {
    forall i | 0 <= i < |Sort(ScoreUris(uris))|
      ensures Sort(ScoreUris(uris))[i].score == Str(Sort(ScoreUris(uris))[i].term)
    {
      var k := SortOrigin(ScoreUris(uris), i);
    }
  }

  lemma UrisInjective(us: seq<string>, vs: seq<string>)
    requires Scores(Sort(ScoreUris(us))) == Scores(Sort(ScoreUris(vs)))
    ensures Sort(ScoreUris(us)) == Sort(ScoreUris(vs))
  {
    var a, b := Sort(ScoreUris(us)), Sort(ScoreUris(vs));
    UriScores(us);
    UriScores(vs);
    assert |a| == |Scores(a)| == |b|;
    forall i | 0 <= i < |a| ensures a[i] == b[i] {
      assert Scores(a)[i] == Scores(b)[i];
    }
  }

  lemma {:induction false} NewInjective(fc: FreeCounter, n: New, m: New)
    requires FaithfulNew(fc, n) && FaithfulNew(fc, m)
    requires SortNew(n).score == SortNew(m).score
    ensures SortNew(n) == SortNew(m)
    decreases n
  {
    hide SortPar, SortInjections, Sort, FaithfulPar, FaithfulInjections;
    var u, v := Scores(Sort(ScoreUris(n.uri))), Scores(Sort(ScoreUris(m.uri)));
    var i, k := Scores(SortInjections(n.injections)), Scores(SortInjections(m.injections));
    var x, y := [Int(n.bindCount)], [Int(m.bindCount)];
    var s, t := [SortPar(n.p).score], [SortPar(m.p).score];
    assert x + OrAbsent(u) + OrAbsent(i) + s == x + (OrAbsent(u) + OrAbsent(i)) + s;
    assert y + OrAbsent(v) + OrAbsent(k) + t == y + (OrAbsent(v) + OrAbsent(k)) + t;
    NodeScoreInjective(NEW, x + OrAbsent(u) + OrAbsent(i) + s, NEW, y + OrAbsent(v) + OrAbsent(k) + t);
    Sandwich(x, OrAbsent(u) + OrAbsent(i), s, y, OrAbsent(v) + OrAbsent(k), t);
    assert x[0] == y[0] && s[0] == t[0];
    UriScores(n.uri);
    UriScores(m.uri);
    NewChildrenSplit(u, i, v, k);
    UrisInjective(n.uri, m.uri);
    InjectionsInjective(fc, n.injections, m.injections);
    ParInjective(fc, n.p, m.p);
  }

  lemma {:induction false} MatchCaseInjective(fc: FreeCounter, c: MatchCase, d: MatchCase)
    requires FaithfulMatchCase(fc, c) && FaithfulMatchCase(fc, d)
    requires SortMatchCase(c).score == SortMatchCase(d).score
    ensures SortMatchCase(c) == SortMatchCase(d)
    decreases c
  {
    hide SortPar, FaithfulPar;
    var x, y := SortMatchCase(c).score.children, SortMatchCase(d).score.children;
    assert x[0] == y[0] && x[1] == y[1] && x[2] == y[2];
    ParInjective(fc, c.pattern, d.pattern);
    ParInjective(fc, c.source, d.source);
  }

  lemma {:induction false} MatchInjective(fc: FreeCounter, m: Match, n: Match)
    requires FaithfulMatch(fc, m) && FaithfulMatch(fc, n)
    requires SortMatch(m).score == SortMatch(n).score
    ensures SortMatch(m) == SortMatch(n)
    decreases m
  {
    hide SortPar, SortMatchCases, FaithfulPar, FaithfulMatchCases;
    var c, d := Scores(SortMatchCases(m.cases)), Scores(SortMatchCases(n.cases));
    var pre1, pre2 := [SortPar(m.target).score], [SortPar(n.target).score];
    var post1, post2 := [Flag(m.connectiveUsed)], [Flag(n.connectiveUsed)];
    NodeScoreInjective(MATCH, pre1 + c + post1, MATCH, pre2 + d + post2);
    Sandwich(pre1, c, post1, pre2, d, post2);
    assert pre1[0] == pre2[0] && post1[0] == post2[0];
    ParInjective(fc, m.target, n.target);
    MatchCasesInjective(fc, m.cases, n.cases);
  }

  lemma {:induction false} BundleInjective(fc: FreeCounter, b: Bundle, c: Bundle)
    requires FaithfulBundle(fc, b) && FaithfulBundle(fc, c)
    requires SortBundle(b).score == SortBundle(c).score
    ensures SortBundle(b) == SortBundle(c)
    decreases b
  {
    hide SortPar, FaithfulPar;
    NodeScoreInjective(BundleTag(b), [SortPar(b.body).score], BundleTag(c), [SortPar(c.body).score]);
    assert [SortPar(b.body).score][0] == [SortPar(c.body).score][0];
    ParInjective(fc, b.body, c.body);
  }

  function ConnectiveTag(c: Connective): int {
    match c
    case ConnAnd(_) => CONNECTIVE_AND
    case ConnOr(_) => CONNECTIVE_OR
    case ConnNot(_) => CONNECTIVE_NOT
    case VarRef(_, _) => CONNECTIVE_VARREF
    case ConnBool(_) => CONNECTIVE_BOOL
    case ConnInt(_) => CONNECTIVE_INT
    case ConnBigInt(_) => CONNECTIVE_BIG_INT
    case ConnString(_) => CONNECTIVE_STRING
    case ConnUri(_) => CONNECTIVE_URI
    case ConnByteArray(_) => CONNECTIVE_BYTEARRAY
    case EmptyConnective => ABSENT
  }

  /** Everything after the tag in a connective's score. */
  function ConnectiveRest(c: Connective): seq<Tree> {
    match c
    case ConnAnd(ps) => Scores(SortPars(ps))
    case ConnOr(ps) => Scores(SortPars(ps))
    case ConnNot(p) => [SortPar(p).score]
    case VarRef(i, d) => [Int(i), Int(d)]
    case EmptyConnective => []
    case ConnBool(b) => [Flag(b)]
    case ConnInt(b) => [Flag(b)]
    case ConnBigInt(b) => [Flag(b)]
    case ConnString(b) => [Flag(b)]
    case ConnUri(b) => [Flag(b)]
    case ConnByteArray(b) => [Flag(b)]
  }

  lemma ConnectiveShape(c: Connective)
    ensures SortConnective(c).score == if c.EmptyConnective? then Int(ABSENT) else NodeScore(ConnectiveTag(c), ConnectiveRest(c))
  {
    hide SortPar, SortPars;
  }

  lemma {:induction false} ConnectiveInjective(fc: FreeCounter, c: Connective, d: Connective)
    requires FaithfulConnective(fc, c) && FaithfulConnective(fc, d)
    requires SortConnective(c).score == SortConnective(d).score
    ensures SortConnective(c) == SortConnective(d)
    decreases c
  {
    hide SortPar, SortPars, FaithfulPar, FaithfulPars, NodeScore;
    ConnectiveShape(c);
    ConnectiveShape(d);
    if c.EmptyConnective? || d.EmptyConnective? {
      assert c == d by { ConnectiveScoreKinds(c); ConnectiveScoreKinds(d); }
    } else {
      var x, y := ConnectiveRest(c), ConnectiveRest(d);
      NodeScoreInjective(ConnectiveTag(c), x, ConnectiveTag(d), y);
      if c.ConnAnd? {
        ParsInjective(fc, c.ps, d.ps);
      } else if c.ConnOr? {
        ParsInjective(fc, c.ps, d.ps);
      } else if c.ConnNot? {
        assert x[0] == y[0];
        ParInjective(fc, c.p, d.p);
      } else if c.VarRef? {
        assert x[0] == y[0] && x[1] == y[1];
      } else {
        assert x[0] == y[0];
      }
    }
  }

  lemma ConnectiveScoreKinds(c: Connective)
    ensures SortConnective(c).score.Leaf? <==> c.EmptyConnective?
  {
    hide SortPar, SortPars;
  }

  lemma UnforgeableInjective(u: GUnforgeable, v: GUnforgeable)
    requires SortUnforgeable(u).score == SortUnforgeable(v).score
    ensures u == v
  {
    var c, d := SortUnforgeable(u).score.children, SortUnforgeable(v).score.children;
    assert c[0] == d[0];
    if |c| == 2 { assert c[1] == d[1]; }
  }

  lemma UnforgeablesInjective(us: seq<GUnforgeable>, vs: seq<GUnforgeable>)
    requires Scores(Sort(SortUnforgeables(us))) == Scores(Sort(SortUnforgeables(vs)))
    ensures Sort(SortUnforgeables(us)) == Sort(SortUnforgeables(vs))
  {
    hide Sort;
    var a, b := Sort(SortUnforgeables(us)), Sort(SortUnforgeables(vs));
    assert |a| == |Scores(a)| == |b|;
    forall i | 0 <= i < |a| ensures a[i] == b[i] {
      var k := SortOrigin(SortUnforgeables(us), i);
      var l := SortOrigin(SortUnforgeables(vs), i);
      assert Scores(a)[i] == Scores(b)[i];
      UnforgeableInjective(us[k], vs[l]);
    }
  }

  function ExprTag(e: Expr): int {
    match e
    case GBool(_) => BOOL
    case GInt(_) => INT
    case GBigInt(_) => BIG_INT
    case GString(_) => STRING
    case GUri(_) => URI
    case GByteArray(_) => EBYTEARR
    case ENot(_) => ENOT
    case ENeg(_) => ENEG
    case EVar(_) => EVAR
    case EBinary(op, _, _) => OpScore(op)
    case EList(_, _, _) => ELIST
    case ETuple(_, _) => ETUPLE
    case ESet(_, _, _) => ESET
    case EMap(_, _, _) => EMAP
    case EMethod(_, _, _, _) => EMETHOD
  }

  /** Everything after the tag in an expression's score. */
  function ExprRest(e: Expr): seq<Tree> {
    match e
    case GBool(b) => [Int(if b then 0 else 1)]
    case GInt(i) => [Int(i)]
    case GBigInt(n) => [Leaf(BigIntAtom(n))]
    case GString(s) => [Str(s)]
    case GUri(u) => [Str(u)]
    case GByteArray(bs) => [Leaf(BytesAtom(bs))]
    case ENot(p) => [SortPar(p).score]
    case ENeg(p) => [SortPar(p).score]
    case EVar(v) => [ScoreVar(v)]
    case EBinary(_, p, q) => [SortPar(p).score, SortPar(q).score]
    case EList(ps, r, cu) => [RemainderScore(r)] + Scores(SortPars(ps)) + [Flag(cu)]
    case ETuple(ps, cu) => Scores(SortPars(ps)) + [Flag(cu)]
    case ESet(ps, r, cu) => [RemainderScore(r)] + Scores(SortPars(ps)) + [Flag(cu)]
    case EMap(kvs, r, cu) => [RemainderScore(r)] + Scores(SortKeyValues(kvs)) + [Flag(cu)]
    case EMethod(name, t, args, cu) => [Str(name), SortPar(t).score] + Scores(SortPars(args)) + [Flag(cu)]
  }

  lemma ExprShape(e: Expr)
    ensures SortExpr(e).score == NodeScore(ExprTag(e), ExprRest(e))
  {
    hide SortPar, SortPars, SortKeyValues, NodeScore;
  }

  /** The tag names the constructor and, for a binary expression, the operator. */
  lemma SameTag(e: Expr, d: Expr)
    requires ExprTag(e) == ExprTag(d)
    ensures e.EBinary? <==> d.EBinary?
    ensures e.EBinary? ==> e.op == d.op
  {
  }

  lemma {:induction false} ExprInjective(fc: FreeCounter, e: Expr, d: Expr)
    requires FaithfulExpr(fc, e) && FaithfulExpr(fc, d)
    requires SortExpr(e).score == SortExpr(d).score
    ensures SortExpr(e) == SortExpr(d)
    decreases e, 1
  {
    hide SortPar, SortPars, SortKeyValues, FaithfulPar, FaithfulPars, NodeScore, SortExpr;
    ExprShape(e);
    ExprShape(d);
    NodeScoreInjective(ExprTag(e), ExprRest(e), ExprTag(d), ExprRest(d));
    if e.EList? || e.ETuple? || e.ESet? || e.EMethod? {
      CollectionInjective(fc, e, d);
    } else if e.EBinary? {
      OperatorInjective(fc, e, d);
    } else {
      GroundInjective(fc, e, d);
    }
  }

  lemma {:induction false} OperatorInjective(fc: FreeCounter, e: Expr, d: Expr)
    requires FaithfulExpr(fc, e) && FaithfulExpr(fc, d) && e.EBinary?
    requires ExprTag(e) == ExprTag(d) && ExprRest(e) == ExprRest(d)
    ensures SortExpr(e) == SortExpr(d)
    decreases e, 0
  {
    hide SortPar, SortPars, SortKeyValues, FaithfulPar, FaithfulPars;
    SameTag(e, d);
    var x, y := ExprRest(e), ExprRest(d);
    assert x[0] == y[0] && x[1] == y[1];
    ParInjective(fc, e.left, d.left);
    ParInjective(fc, e.right, d.right);
  }

  lemma {:induction false} GroundInjective(fc: FreeCounter, e: Expr, d: Expr)
    requires FaithfulExpr(fc, e) && FaithfulExpr(fc, d)
    requires !(e.EList? || e.ETuple? || e.ESet? || e.EMethod? || e.EBinary?)
    requires ExprTag(e) == ExprTag(d) && ExprRest(e) == ExprRest(d)
    ensures SortExpr(e) == SortExpr(d)
    decreases e, 0
  {
    hide SortPar, SortPars, SortKeyValues, FaithfulPar, FaithfulPars;
    var x, y := ExprRest(e), ExprRest(d);
    assert x[0] == y[0];
    match e
    case ENot(p) => ParInjective(fc, p, d.p);
    case ENeg(p) => ParInjective(fc, p, d.p);
    case EVar(v) => VarInjective(v, d.v);
    case _ =>
  }

  lemma {:induction false} CollectionInjective(fc: FreeCounter, e: Expr, d: Expr)
    requires FaithfulExpr(fc, e) && FaithfulExpr(fc, d)
    requires e.EList? || e.ETuple? || e.ESet? || e.EMethod?
    requires ExprTag(e) == ExprTag(d) && ExprRest(e) == ExprRest(d)
    ensures SortExpr(e) == SortExpr(d)
    decreases e, 0
  {
    hide SortPar, SortPars, SortKeyValues, FaithfulPar, FaithfulPars;
    var post1, post2 := [Flag(e.connectiveUsed)], [Flag(d.connectiveUsed)];
    var pre1, pre2 :=
      if e.ETuple? then [] else if e.EMethod? then [Str(e.name), SortPar(e.target).score] else [RemainderScore(e.remainder)],
      if d.ETuple? then [] else if d.EMethod? then [Str(d.name), SortPar(d.target).score] else [RemainderScore(d.remainder)];
    var ps, qs := if e.EMethod? then e.arguments else e.ps, if d.EMethod? then d.arguments else d.ps;
    var mid1, mid2 := Scores(SortPars(ps)), Scores(SortPars(qs));
    assert e.ETuple? ==> [] + mid1 + post1 == mid1 + post1 && [] + mid2 + post2 == mid2 + post2;
    Sandwich(pre1, mid1, post1, pre2, mid2, post2);
    assert post1[0] == post2[0];
    ParsInjective(fc, ps, qs);
    if e.EMethod? {
      assert pre1[0] == pre2[0] && pre1[1] == pre2[1];
      ParInjective(fc, e.target, d.target);
    } else if !e.ETuple? {
      assert pre1[0] == pre2[0];
      RemainderInjective(e.remainder, d.remainder);
    }
  }

  /** The scores of a `Par`'s fields, in the order the score lists them. */
  function FieldScores(p: Par): seq<seq<Tree>> {
    [Scores(Sort(SortSends(p.sends))), Scores(Sort(SortReceives(p.receives))), Scores(Sort(SortExprs(p.exprs))),
     Scores(Sort(SortNews(p.news))), Scores(Sort(SortMatches(p.matches))), Scores(Sort(SortBundles(p.bundles))),
     Scores(Sort(SortConnectives(p.connectives))), Scores(Sort(SortUnforgeables(p.unforgeables)))]
  }

  lemma SortedInField<T>(xs: seq<Scored<T>>, field: int)
    requires forall k :: 0 <= k < |xs| ==> FieldOf(xs[k].score) == field
    ensures AllInField(Scores(Sort(xs)), field)
  {
    hide FieldOf, Sort;
    forall i | 0 <= i < |Sort(xs)| ensures FieldOf(Sort(xs)[i].score) == field {
      var k := SortOrigin(xs, i);
    }
  }

  lemma SendsInField(ss: seq<Send>)
    ensures AllInField(Scores(Sort(SortSends(ss))), 0)
  {
    hide SortPar, SortPars, Sort, SortSends, AllInField, Scores;
    forall k | 0 <= k < |ss| ensures FieldOf(SortSends(ss)[k].score) == 0 {
    }
    SortedInField(SortSends(ss), 0);
  }

  lemma ReceivesInField(rs: seq<Receive>)
    ensures AllInField(Scores(Sort(SortReceives(rs))), 1)
  {
    hide SortPar, SortPars, Sort, SortReceives, AllInField, Scores;
    forall k | 0 <= k < |rs| ensures FieldOf(SortReceives(rs)[k].score) == 1 {
    }
    SortedInField(SortReceives(rs), 1);
  }

  lemma ExprsInField(es: seq<Expr>)
    ensures AllInField(Scores(Sort(SortExprs(es))), 2)
  {
    hide SortPar, SortPars, SortKeyValues, SortExpr, Sort, SortExprs, AllInField, Scores;
    forall k | 0 <= k < |es| ensures FieldOf(SortExprs(es)[k].score) == 2 {
      ExprShape(es[k]);
    }
    SortedInField(SortExprs(es), 2);
  }

  lemma NewsInField(ns: seq<New>)
    ensures AllInField(Scores(Sort(SortNews(ns))), 3)
  {
    hide SortPar, SortPars, Sort, SortNews, AllInField, Scores;
    forall k | 0 <= k < |ns| ensures FieldOf(SortNews(ns)[k].score) == 3 {
    }
    SortedInField(SortNews(ns), 3);
  }

  lemma MatchesInField(ms: seq<Match>)
    ensures AllInField(Scores(Sort(SortMatches(ms))), 4)
  {
    hide SortPar, SortPars, Sort, SortMatches, AllInField, Scores;
    forall k | 0 <= k < |ms| ensures FieldOf(SortMatches(ms)[k].score) == 4 {
    }
    SortedInField(SortMatches(ms), 4);
  }

  lemma BundlesInField(bs: seq<Bundle>)
    ensures AllInField(Scores(Sort(SortBundles(bs))), 5)
  {
    hide SortPar, SortPars, Sort, SortBundles, AllInField, Scores;
    forall k | 0 <= k < |bs| ensures FieldOf(SortBundles(bs)[k].score) == 5 {
    }
    SortedInField(SortBundles(bs), 5);
  }

  lemma ConnectivesInField(cs: seq<Connective>)
    ensures AllInField(Scores(Sort(SortConnectives(cs))), 6)
  {
    hide SortPar, SortPars, SortConnective, Sort, SortConnectives, AllInField, Scores;
    forall k | 0 <= k < |cs| ensures FieldOf(SortConnectives(cs)[k].score) == 6 {
      ConnectiveShape(cs[k]);
    }
    SortedInField(SortConnectives(cs), 6);
  }

  lemma UnforgeablesInField(us: seq<GUnforgeable>)
    ensures AllInField(Scores(Sort(SortUnforgeables(us))), 7)
  {
    hide Sort, SortUnforgeables, AllInField, Scores;
    forall k | 0 <= k < |us| ensures FieldOf(SortUnforgeables(us)[k].score) == 7 {
    }
    SortedInField(SortUnforgeables(us), 7);
  }

  lemma FieldsAreTagged(p: Par)
    ensures forall i :: 0 <= i < |FieldScores(p)| ==> AllInField(FieldScores(p)[i], 0 + i)
  {
    hide Sort, SortSends, SortReceives, SortExprs, SortNews, SortMatches, SortBundles, SortConnectives,
         SortUnforgeables;
    SendsInField(p.sends);
    ReceivesInField(p.receives);
    ExprsInField(p.exprs);
    NewsInField(p.news);
    MatchesInField(p.matches);
    BundlesInField(p.bundles);
    ConnectivesInField(p.connectives);
    UnforgeablesInField(p.unforgeables);
  }

  /** Equal scores mean equal canonical terms, on the faithful fragment. */
  lemma {:induction false} ParInjective(fc: FreeCounter, p: Par, q: Par)
    requires FaithfulPar(fc, p) && FaithfulPar(fc, q)
    requires SortPar(p).score == SortPar(q).score
    ensures SortPar(p) == SortPar(q)
    decreases p
  {
    hide Sort, SortSends, SortReceives, SortExprs, SortNews, SortMatches, SortBundles, SortConnectives, SortUnforgeables,
         FaithfulSends, FaithfulReceives, FaithfulExprs, FaithfulNews, FaithfulMatches, FaithfulBundles, FaithfulConnectives,
         Flatten, NodeScore;
    var x, y := FieldScores(p), FieldScores(q);
    var f, g := [Flag(p.connectiveUsed)], [Flag(q.connectiveUsed)];
    NodeScoreInjective(PAR, Flatten(x) + f, PAR, Flatten(y) + g);
    assert [] + Flatten(x) + f == Flatten(x) + f && [] + Flatten(y) + g == Flatten(y) + g;
    Sandwich([], Flatten(x), f, [], Flatten(y), g);
    assert f[0] == g[0];
    FieldsAreTagged(p);
    FieldsAreTagged(q);
    FlattenInjective(x, y, 0);
    assert forall i :: 0 <= i < 8 ==> x[i] == y[i];
    assert x[0] == y[0] && x[1] == y[1] && x[2] == y[2] && x[3] == y[3];
    assert x[4] == y[4] && x[5] == y[5] && x[6] == y[6] && x[7] == y[7];
    SendsInjective(fc, p.sends, q.sends);
    ReceivesInjective(fc, p.receives, q.receives);
    ExprsInjective(fc, p.exprs, q.exprs);
    NewsInjective(fc, p.news, q.news);
    MatchesInjective(fc, p.matches, q.matches);
    BundlesInjective(fc, p.bundles, q.bundles);
    ConnectivesInjective(fc, p.connectives, q.connectives);
    UnforgeablesInjective(p.unforgeables, q.unforgeables);
  }
}
