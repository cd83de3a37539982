/** Law 1 of the sorter: the canonical form of `p | q` against that of `q | p`. The
    scores always agree. The terms agree exactly when, field by field and score
    by score, the elements of `p` and `q` commute as lists; on the faithful
    fragment they always do. */
module SorterCanonical {
  import opened Orders
  import opened StableSort
  import opened Ast
  import opened Sorter
  import opened SorterIdempotent
  import opened SorterInjective

  /** For every score, listing the elements of `xs` with it before those of `ys` or after makes no difference. */
  ghost predicate CommuteByScore<T>(xs: seq<Scored<T>>, ys: seq<Scored<T>>) {
    forall s :: WithScore(xs, s) + WithScore(ys, s) == WithScore(ys, s) + WithScore(xs, s)
  }

  lemma FieldScoresAgree<T>(xs: seq<Scored<T>>, ys: seq<Scored<T>>)
    ensures Scores(Sort(xs + ys)) == Scores(Sort(ys + xs))
  {
    assert Scores(xs + ys) == Scores(xs) + Scores(ys);
    assert Scores(ys + xs) == Scores(ys) + Scores(xs);
    SortedScoresOrderFree(xs + ys, ys + xs);
  }

  lemma FieldCommutesIff<T>(xs: seq<Scored<T>>, ys: seq<Scored<T>>)
    ensures Terms(Sort(xs + ys)) == Terms(Sort(ys + xs)) <==> CommuteByScore(xs, ys)
  {
    hide Sort, WithScore;
    var a, b := Sort(xs + ys), Sort(ys + xs);
    FieldScoresAgree(xs, ys);
    assert Terms(a) == Terms(b) <==> a == b by {
      assert |a| == |Scores(a)| && |b| == |Scores(b)|;
      if Terms(a) == Terms(b) {
        forall i | 0 <= i < |a| ensures a[i] == b[i] {
          assert Terms(a)[i] == Terms(b)[i] && Scores(a)[i] == Scores(b)[i];
        }
      }
    }
    SortEqualIff(xs + ys, ys + xs);
    forall s
      ensures WithScore(xs + ys, s) == WithScore(xs, s) + WithScore(ys, s)
      ensures WithScore(ys + xs, s) == WithScore(ys, s) + WithScore(xs, s)
    {
      WithScoreConcat(xs, ys, s);
      WithScoreConcat(ys, xs, s);
    }
  }

  lemma MergedFields(p: Par, q: Par)
    ensures SortSends(p.sends + q.sends) == SortSends(p.sends) + SortSends(q.sends)
    ensures SortReceives(p.receives + q.receives) == SortReceives(p.receives) + SortReceives(q.receives)
    ensures SortExprs(p.exprs + q.exprs) == SortExprs(p.exprs) + SortExprs(q.exprs)
    ensures SortNews(p.news + q.news) == SortNews(p.news) + SortNews(q.news)
    ensures SortMatches(p.matches + q.matches) == SortMatches(p.matches) + SortMatches(q.matches)
    ensures SortBundles(p.bundles + q.bundles) == SortBundles(p.bundles) + SortBundles(q.bundles)
    ensures SortConnectives(p.connectives + q.connectives) == SortConnectives(p.connectives) + SortConnectives(q.connectives)
    ensures SortUnforgeables(p.unforgeables + q.unforgeables) == SortUnforgeables(p.unforgeables) + SortUnforgeables(q.unforgeables)
  {
    hide *;
  }

  /** The score of a parallel composition does not depend on the order of its parts. */
  lemma MergeScoresAgree(p: Par, q: Par)
    ensures SortPar(ParMerge(p, q)).score == SortPar(ParMerge(q, p)).score
  {
    hide Sort, SortSends, SortReceives, SortExprs, SortNews, SortMatches, SortBundles, SortConnectives,
         SortUnforgeables;
    MergedFields(p, q);
    MergedFields(q, p);
    FieldScoresAgree(SortSends(p.sends), SortSends(q.sends));
    FieldScoresAgree(SortReceives(p.receives), SortReceives(q.receives));
    FieldScoresAgree(SortExprs(p.exprs), SortExprs(q.exprs));
    FieldScoresAgree(SortNews(p.news), SortNews(q.news));
    FieldScoresAgree(SortMatches(p.matches), SortMatches(q.matches));
    FieldScoresAgree(SortBundles(p.bundles), SortBundles(q.bundles));
    FieldScoresAgree(SortConnectives(p.connectives), SortConnectives(q.connectives));
    FieldScoresAgree(SortUnforgeables(p.unforgeables), SortUnforgeables(q.unforgeables));
  }

  ghost predicate FieldsCommute(p: Par, q: Par) {
    && CommuteByScore(SortSends(p.sends), SortSends(q.sends))
    && CommuteByScore(SortReceives(p.receives), SortReceives(q.receives))
    && CommuteByScore(SortExprs(p.exprs), SortExprs(q.exprs))
    && CommuteByScore(SortNews(p.news), SortNews(q.news))
    && CommuteByScore(SortMatches(p.matches), SortMatches(q.matches))
    && CommuteByScore(SortBundles(p.bundles), SortBundles(q.bundles))
    && CommuteByScore(SortConnectives(p.connectives), SortConnectives(q.connectives))
    && CommuteByScore(SortUnforgeables(p.unforgeables), SortUnforgeables(q.unforgeables))
  }

  /** Exactly when `p | q` and `q | p` have the same canonical form. */
  lemma MergeCommutesIff(p: Par, q: Par)
    ensures SortPar(ParMerge(p, q)).term == SortPar(ParMerge(q, p)).term <==> FieldsCommute(p, q)
  {
    hide Sort, SortSends, SortReceives, SortExprs, SortNews, SortMatches, SortBundles, SortConnectives, SortUnforgeables,
         CommuteByScore, Flatten, NodeScore;
    MergedFields(p, q);
    MergedFields(q, p);
    FieldCommutesIff(SortSends(p.sends), SortSends(q.sends));
    FieldCommutesIff(SortReceives(p.receives), SortReceives(q.receives));
    FieldCommutesIff(SortExprs(p.exprs), SortExprs(q.exprs));
    FieldCommutesIff(SortNews(p.news), SortNews(q.news));
    FieldCommutesIff(SortMatches(p.matches), SortMatches(q.matches));
    FieldCommutesIff(SortBundles(p.bundles), SortBundles(q.bundles));
    FieldCommutesIff(SortConnectives(p.connectives), SortConnectives(q.connectives));
    FieldCommutesIff(SortUnforgeables(p.unforgeables), SortUnforgeables(q.unforgeables));
  }

  lemma MergeFaithful(fc: FreeCounter, p: Par, q: Par)
    requires FaithfulPar(fc, p) && FaithfulPar(fc, q)
    ensures FaithfulPar(fc, ParMerge(p, q))
  {
    hide FaithfulSend, FaithfulReceive, FaithfulNew, FaithfulExpr, FaithfulMatch, FaithfulBundle, FaithfulConnective;
  }

  /** On the faithful fragment the canonical form ignores the order of composition. */
  lemma MergeCommutes(fc: FreeCounter, p: Par, q: Par)
    requires FaithfulPar(fc, p) && FaithfulPar(fc, q)
    ensures SortPar(ParMerge(p, q)).term == SortPar(ParMerge(q, p)).term
  {
    hide FaithfulPar, SortPar;
    MergeFaithful(fc, p, q);
    MergeFaithful(fc, q, p);
    MergeScoresAgree(p, q);
    ParInjective(fc, ParMerge(p, q), ParMerge(q, p));
  }

  /** On the faithful fragment a score identifies the canonical term. */
  lemma ScoreIdentifiesTerm(fc: FreeCounter, p: Par, q: Par)
    requires FaithfulPar(fc, p) && FaithfulPar(fc, q)
    ensures SortPar(p).score == SortPar(q).score <==> SortPar(p).term == SortPar(q).term
  {
    hide FaithfulPar, SortPar;
    SortParStable(p);
    SortParStable(q);
    if SortPar(p).score == SortPar(q).score {
      ParInjective(fc, p, q);
    }
  }

  // ----- what the fragment excludes, and why

  function OneExpr(e: Expr): Par { Nil.(exprs := [e]) }
  function OneReceive(r: Receive): Par { Nil.(receives := [r]) }

  /** Expressions of equal score but different canonical form show their order of composition. */
  lemma CollidingExprsShowOrder(e: Expr, d: Expr)
    requires SortExpr(e).score == SortExpr(d).score && SortExpr(e).term != SortExpr(d).term
    ensures SortPar(ParMerge(OneExpr(e), OneExpr(d))).term != SortPar(ParMerge(OneExpr(d), OneExpr(e))).term
  {
    hide SortPar, SortExpr;
    var xs, ys := SortExprs([e]), SortExprs([d]);
    var s := SortExpr(e).score;
    assert WithScore(xs, s) == [SortExpr(e)] by { assert xs[1..] == []; }
    assert WithScore(ys, s) == [SortExpr(d)] by { assert ys[1..] == []; }
    assert (WithScore(xs, s) + WithScore(ys, s))[0] != (WithScore(ys, s) + WithScore(xs, s))[0];
    assert !CommuteByScore(xs, ys);
    MergeCommutesIff(OneExpr(e), OneExpr(d));
  }

  lemma CollidingReceivesShowOrder(r: Receive, q: Receive)
    requires SortReceive(r).score == SortReceive(q).score && SortReceive(r).term != SortReceive(q).term
    ensures SortPar(ParMerge(OneReceive(r), OneReceive(q))).term != SortPar(ParMerge(OneReceive(q), OneReceive(r))).term
  {
    hide SortPar, SortReceive;
    var xs, ys := SortReceives([r]), SortReceives([q]);
    var s := SortReceive(r).score;
    assert WithScore(xs, s) == [SortReceive(r)] by { assert xs[1..] == []; }
    assert WithScore(ys, s) == [SortReceive(q)] by { assert ys[1..] == []; }
    assert (WithScore(xs, s) + WithScore(ys, s))[0] != (WithScore(ys, s) + WithScore(xs, s))[0];
    assert !CommuteByScore(xs, ys);
    MergeCommutesIff(OneReceive(r), OneReceive(q));
  }

  /** Maps with the same keys and different values: the sorter keeps their input order. */
  lemma MapValuesShowOrder(key: Par, v: Par, w: Par, r: Option<Var>, cu: bool)
    requires SortPar(v).term != SortPar(w).term
    ensures var e, d := EMap([KeyValue(key, v)], r, cu), EMap([KeyValue(key, w)], r, cu);
            && SortExpr(e).score == SortExpr(d).score
            && SortPar(ParMerge(OneExpr(e), OneExpr(d))).term != SortPar(ParMerge(OneExpr(d), OneExpr(e))).term
  {
    hide SortPar;
    var kv, kw := KeyValue(key, v), KeyValue(key, w);
    var e, d := EMap([kv], r, cu), EMap([kw], r, cu);
    assert Scores(SortKeyValues([kv])) == [SortPar(key).score] == Scores(SortKeyValues([kw]));
    assert SortExpr(e).term.kvs[0].value == SortPar(v).term && SortExpr(d).term.kvs[0].value == SortPar(w).term;
    CollidingExprsShowOrder(e, d);
  }

  /** Receives whose only bind differs in its free count: likewise. */
  lemma FreeCountShowsOrder(b: ReceiveBind, m: int, n: int, body: Par)
    requires m != n
    ensures var r := Receive([b.(freeCount := m)], body, false, false, 0, false);
            var q := Receive([b.(freeCount := n)], body, false, false, 0, false);
            && SortReceive(r).score == SortReceive(q).score
            && SortPar(ParMerge(OneReceive(r), OneReceive(q))).term != SortPar(ParMerge(OneReceive(q), OneReceive(r))).term
  {
    hide SortPar, SortPars;
    var c, d := b.(freeCount := m), b.(freeCount := n);
    var r, q := Receive([c], body, false, false, 0, false), Receive([d], body, false, false, 0, false);
    assert Scores(SortReceiveBinds([c])) == [SortReceiveBind(c).score] == Scores(SortReceiveBinds([d]));
    assert SortReceive(r).term.binds[0].freeCount == m && SortReceive(q).term.binds[0].freeCount == n;
    CollidingReceivesShowOrder(r, q);
  }

  /** Receives whose only bind has no remainder or an empty-variable remainder: likewise. */
  lemma EmptyRemainderShowsOrder(b: ReceiveBind, body: Par)
    ensures var r := Receive([b.(remainder := None)], body, false, false, 0, false);
            var q := Receive([b.(remainder := Some(EmptyVar))], body, false, false, 0, false);
            && SortReceive(r).score == SortReceive(q).score
            && SortPar(ParMerge(OneReceive(r), OneReceive(q))).term != SortPar(ParMerge(OneReceive(q), OneReceive(r))).term
  {
    hide SortPar, SortPars;
    var c, d := b.(remainder := None), b.(remainder := Some(EmptyVar));
    var r, q := Receive([c], body, false, false, 0, false), Receive([d], body, false, false, 0, false);
    assert Scores(SortReceiveBinds([c])) == [SortReceiveBind(c).score] == Scores(SortReceiveBinds([d]));
    assert SortReceive(r).term.binds[0].remainder == None && SortReceive(q).term.binds[0].remainder == Some(EmptyVar);
    CollidingReceivesShowOrder(r, q);
  }
}
