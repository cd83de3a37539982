/** The stable `sort_by` on scores. The algorithm is an insertion sort; what the
    sorter relies on is only that the result is sorted and keeps, for every
    score, the input order of the elements carrying it. `SortCharacterised`
    shows these two facts pin the result down, so any stable sort computes it. */
module StableSort {
  import opened ScoreTree

  /** A term paired with its score tree. */
  datatype Scored<+T> = Scored(term: T, score: Tree)

  function Terms<T>(xs: seq<Scored<T>>): (r: seq<T>)
    ensures |r| == |xs| && forall i :: 0 <= i < |xs| ==> r[i] == xs[i].term
  {
    seq(|xs|, i requires 0 <= i < |xs| => xs[i].term)
  }

  function Scores<T>(xs: seq<Scored<T>>): (r: seq<Tree>)
    ensures |r| == |xs| && forall i :: 0 <= i < |xs| ==> r[i] == xs[i].score
  {
    seq(|xs|, i requires 0 <= i < |xs| => xs[i].score)
  }

  predicate IsSorted<T>(xs: seq<Scored<T>>) {
    forall i, j :: 0 <= i < j < |xs| ==> AtMost(xs[i].score, xs[j].score)
  }

  function Insert<T>(x: Scored<T>, xs: seq<Scored<T>>): seq<Scored<T>> {
    if xs == [] then [x]
    else if AtMost(x.score, xs[0].score) then [x] + xs
    else [xs[0]] + Insert(x, xs[1..])
  }

  function Sort<T>(xs: seq<Scored<T>>): seq<Scored<T>> {
    if xs == [] then [] else Insert(xs[0], Sort(xs[1..]))
  }

  /** The elements of score `s`, in list order. */
  function WithScore<T>(xs: seq<Scored<T>>, s: Tree): seq<Scored<T>> {
    if xs == [] then []
    else (if xs[0].score == s then [xs[0]] else []) + WithScore(xs[1..], s)
  }

  lemma {:induction false} InsertSorted<T>(x: Scored<T>, xs: seq<Scored<T>>)
    requires IsSorted(xs)
    ensures IsSorted(Insert(x, xs))
    ensures multiset(Insert(x, xs)) == multiset{x} + multiset(xs)
  {
    if xs == [] {
    } else if AtMost(x.score, xs[0].score) {
      forall j | 0 <= j < |xs| ensures AtMost(x.score, xs[j].score) {
        if j > 0 { TreeTransitive(x.score, xs[0].score, xs[j].score); }
      }
    } else {
      var tail := Insert(x, xs[1..]);
      InsertSorted(x, xs[1..]);
      assert xs == [xs[0]] + xs[1..];
      TreeTotal(x.score, xs[0].score);
      forall j | 0 <= j < |tail| ensures AtMost(xs[0].score, tail[j].score) {
        assert tail[j] in multiset(tail);
        assert tail[j] == x || tail[j] in xs[1..];
      }
    }
  }

  lemma {:induction false} SortSorted<T>(xs: seq<Scored<T>>)
    ensures IsSorted(Sort(xs))
    ensures multiset(Sort(xs)) == multiset(xs)
    ensures |Sort(xs)| == |xs|
  {
    if xs != [] {
      SortSorted(xs[1..]);
      InsertSorted(xs[0], Sort(xs[1..]));
      assert xs == [xs[0]] + xs[1..];
    }
    assert |multiset(Sort(xs))| == |Sort(xs)| && |multiset(xs)| == |xs|;
  }

  /** Every element of the sorted list is an element of the input. */
  lemma SortOrigin<T>(xs: seq<Scored<T>>, i: nat) returns (k: nat)
    requires i < |Sort(xs)|
    ensures k < |xs| && Sort(xs)[i] == xs[k]
  {
    SortSorted(xs);
    assert Sort(xs)[i] in multiset(Sort(xs));
    assert Sort(xs)[i] in xs;
    k :| 0 <= k < |xs| && xs[k] == Sort(xs)[i];
  }

  /** Every element of the input is an element of the sorted list. */
  lemma SortKeeps<T>(xs: seq<Scored<T>>, k: nat) returns (i: nat)
    requires k < |xs|
    ensures i < |Sort(xs)| && Sort(xs)[i] == xs[k]
  {
    SortSorted(xs);
    assert xs[k] in multiset(xs);
    assert xs[k] in Sort(xs);
    i :| 0 <= i < |Sort(xs)| && Sort(xs)[i] == xs[k];
  }

  lemma {:induction false} InsertWithScore<T>(x: Scored<T>, xs: seq<Scored<T>>, s: Tree)
    requires IsSorted(xs)
    ensures WithScore(Insert(x, xs), s) == (if x.score == s then [x] else []) + WithScore(xs, s)
  {
    if xs == [] {
    } else if AtMost(x.score, xs[0].score) {
      assert ([x] + xs)[1..] == xs;
    } else {
      TreeReflexive(x.score);
      hide AtMost;
      InsertWithScore(x, xs[1..], s);
      var r, rest := [xs[0]] + Insert(x, xs[1..]), Insert(x, xs[1..]);
      assert r[0] == xs[0] && r[1..] == rest;
      assert WithScore(r, s) == (if xs[0].score == s then [xs[0]] else []) + WithScore(rest, s);
      assert xs[0].score == s ==> x.score != s;
    }
  }

  /** Sorting keeps, for every score, the subsequence of elements with that score. */
  lemma {:induction false} SortStable<T>(xs: seq<Scored<T>>, s: Tree)
    ensures WithScore(Sort(xs), s) == WithScore(xs, s)
  {
    if xs != [] {
      SortStable(xs[1..], s);
      SortSorted(xs[1..]);
      InsertWithScore(xs[0], Sort(xs[1..]), s);
    }
  }

  lemma {:induction false} WithScoreMember<T>(xs: seq<Scored<T>>, s: Tree)
    ensures forall x :: x in WithScore(xs, s) <==> x in xs && x.score == s
  {
    if xs != [] {
      WithScoreMember(xs[1..], s);
      assert xs == [xs[0]] + xs[1..];
    }
  }

  /** The two lists hold the same elements in the same order, score by score. */
  ghost predicate SameByScore<T>(xs: seq<Scored<T>>, ys: seq<Scored<T>>) {
    forall s :: WithScore(xs, s) == WithScore(ys, s)
  }

  lemma HeadIsLeast<T>(xs: seq<Scored<T>>, x: Scored<T>)
    requires IsSorted(xs) && x in xs
    ensures AtMost(xs[0].score, x.score)
  {
    TreeReflexive(xs[0].score);
  }

  /** Two sorted lists with the same elements per score, in the same order, are equal. */
  lemma {:induction false} SortedUnique<T>(xs: seq<Scored<T>>, ys: seq<Scored<T>>)
    requires IsSorted(xs) && IsSorted(ys)
    requires SameByScore(xs, ys)
    ensures xs == ys
  {
    if xs == [] {
      if ys != [] {
        WithScoreMember(ys, ys[0].score);
        WithScoreMember(xs, ys[0].score);
        assert false;
      }
    } else {
      var s := xs[0].score;
      WithScoreMember(xs, s);
      WithScoreMember(ys, s);
      assert xs[0] in WithScore(xs, s);
      assert ys != [];
      WithScoreMember(xs, ys[0].score);
      WithScoreMember(ys, ys[0].score);
      assert ys[0] in WithScore(ys, ys[0].score);
      HeadIsLeast(xs, ys[0]);
      HeadIsLeast(ys, xs[0]);
      TreeAntisymmetric(s, ys[0].score);
      assert xs[0] == WithScore(xs, s)[0] == WithScore(ys, s)[0] == ys[0];
      forall t ensures WithScore(xs[1..], t) == WithScore(ys[1..], t) {
        assert WithScore(xs, t) == WithScore(ys, t);
        assert WithScore(xs[1..], t) == if t == s then WithScore(xs, t)[1..] else WithScore(xs, t);
        assert WithScore(ys[1..], t) == if t == s then WithScore(ys, t)[1..] else WithScore(ys, t);
      }
      SortedUnique(xs[1..], ys[1..]);
      assert xs == [xs[0]] + xs[1..] && ys == [ys[0]] + ys[1..];
    }
  }

  /** A stable sort is determined by its specification. */
  lemma SortCharacterised<T>(xs: seq<Scored<T>>, ys: seq<Scored<T>>)
    requires IsSorted(ys)
    requires SameByScore(xs, ys)
    ensures Sort(xs) == ys
  {
    SortSorted(xs);
    forall s ensures WithScore(Sort(xs), s) == WithScore(ys, s) { SortStable(xs, s); }
    SortedUnique(Sort(xs), ys);
  }

  lemma SortIdempotent<T>(xs: seq<Scored<T>>)
    ensures Sort(Sort(xs)) == Sort(xs)
  {
    SortSorted(xs);
    SortCharacterised(Sort(xs), Sort(xs));
  }

  /** Two lists sort alike exactly when they agree score by score. */
  lemma SortEqualIff<T>(xs: seq<Scored<T>>, ys: seq<Scored<T>>)
    ensures Sort(xs) == Sort(ys) <==> SameByScore(xs, ys)
  {
    if Sort(xs) == Sort(ys) {
      forall s ensures WithScore(xs, s) == WithScore(ys, s) {
        SortStable(xs, s);
        SortStable(ys, s);
      }
    }
    if SameByScore(xs, ys) {
      SortSorted(ys);
      forall s ensures WithScore(xs, s) == WithScore(Sort(ys), s) { SortStable(ys, s); }
      SortCharacterised(xs, Sort(ys));
    }
  }

  lemma {:induction false} WithScoreConcat<T>(xs: seq<Scored<T>>, ys: seq<Scored<T>>, s: Tree)
    ensures WithScore(xs + ys, s) == WithScore(xs, s) + WithScore(ys, s)
  {
    if xs == [] {
      assert xs + ys == ys;
    } else {
      var all := xs + ys;
      assert all[0] == xs[0] && all[1..] == xs[1..] + ys;
      WithScoreConcat(xs[1..], ys, s);
      assert WithScore(all, s) == (if xs[0].score == s then [xs[0]] else []) + WithScore(all[1..], s);
    }
  }

  lemma {:induction false} InsertScores<T>(x: Scored<T>, xs: seq<Scored<T>>)
    ensures multiset(Scores(Insert(x, xs))) == multiset{x.score} + multiset(Scores(xs))
  {
    var r := Insert(x, xs);
    if xs == [] {
    } else if AtMost(x.score, xs[0].score) {
      assert Scores(r) == [x.score] + Scores(xs);
    } else {
      InsertScores(x, xs[1..]);
      assert Scores(r) == [xs[0].score] + Scores(Insert(x, xs[1..]));
      assert Scores(xs) == [xs[0].score] + Scores(xs[1..]);
    }
  }

  lemma {:induction false} SortScores<T>(xs: seq<Scored<T>>)
    ensures multiset(Scores(Sort(xs))) == multiset(Scores(xs))
  {
    if xs != [] {
      SortScores(xs[1..]);
      InsertScores(xs[0], Sort(xs[1..]));
      assert Scores(xs) == [xs[0].score] + Scores(xs[1..]);
    }
  }

  predicate SortedTrees(a: seq<Tree>) {
    forall i, j :: 0 <= i < j < |a| ==> AtMost(a[i], a[j])
  }

  lemma SortedHeadsEqual(a: seq<Tree>, b: seq<Tree>, i: nat, k: nat)
    requires SortedTrees(a) && SortedTrees(b) && i < |a| && k < |b|
    requires a[i] == b[0] && b[k] == a[0]
    ensures a[0] == b[0]
  {
    TreeReflexive(a[0]);
    TreeReflexive(b[0]);
    assert AtMost(a[0], a[i]) && AtMost(b[0], b[k]);
    TreeAntisymmetric(a[0], b[0]);
  }

  lemma TailsAgree(a: seq<Tree>, b: seq<Tree>)
    requires a != [] && b != [] && a[0] == b[0] && multiset(a) == multiset(b)
    ensures multiset(a[1..]) == multiset(b[1..])
  {
    assert a == [a[0]] + a[1..] && b == [a[0]] + b[1..];
    assert multiset(a[1..]) == multiset(a) - multiset{a[0]} == multiset(b[1..]);
  }

  lemma {:induction false} SortedTreesUnique(a: seq<Tree>, b: seq<Tree>)
    requires SortedTrees(a) && SortedTrees(b) && multiset(a) == multiset(b)
    ensures a == b
  {
    hide AtMost, SortedTrees;
    assert |a| == |multiset(a)| && |b| == |multiset(b)|;
    if a != [] {
      SortedTail(a);
      SortedTail(b);
      var i := IndexOf(b[0], a, b);
      var k := IndexOf(a[0], b, a);
      SortedHeadsEqual(a, b, i, k);
      TailsAgree(a, b);
      SortedTreesUnique(a[1..], b[1..]);
    }
  }

  lemma SortedTail(a: seq<Tree>)
    requires SortedTrees(a) && a != []
    ensures SortedTrees(a[1..])
  {
    forall i, j | 0 <= i < j < |a[1..]| ensures AtMost(a[1..][i], a[1..][j]) {
      assert a[1..][i] == a[i + 1] && a[1..][j] == a[j + 1];
    }
  }

  lemma IndexOf(x: Tree, a: seq<Tree>, b: seq<Tree>) returns (i: nat)
    requires x in b && multiset(a) == multiset(b)
    ensures i < |a| && a[i] == x
  {
    assert x in multiset(b);
    assert x in a;
    i :| 0 <= i < |a| && a[i] == x;
  }

  /** The sorted scores depend only on which scores occur how often. */
  lemma SortedScoresOrderFree<T>(xs: seq<Scored<T>>, ys: seq<Scored<T>>)
    requires multiset(Scores(xs)) == multiset(Scores(ys))
    ensures Scores(Sort(xs)) == Scores(Sort(ys))
  {
    SortSorted(xs);
    SortSorted(ys);
    SortScores(xs);
    SortScores(ys);
    SortedTreesUnique(Scores(Sort(xs)), Scores(Sort(ys)));
  }
}
