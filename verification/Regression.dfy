/** What the justification-regression check means: the views of a validator only grow.
    Stated by ancestry in the DAG, for every block of every run. */
module Regression {
  import opened Blocks
  import opened Validation
  import opened History
  import opened MessageDag

  /** `m` is the first justification of `b`, in list order, by its own sender. */
  ghost predicate FirstOwn(dag: Dag, b: Block, m: BlockHash) {
    exists i :: OwnAt(dag, b, i) && b.justifications[i] == m
  }

  ghost predicate OwnAt(dag: Dag, b: Block, i: int) {
    && 0 <= i < |b.justifications|
    && b.justifications[i] in dag && dag[b.justifications[i]].sender == b.sender
    && forall k :: 0 <= k < i && b.justifications[k] in dag ==> dag[b.justifications[k]].sender != b.sender
  }

  /** `p` is the parent of `m` by `t` with the least hash. */
  ghost predicate FirstParent(dag: Dag, m: BlockHash, t: Validator, p: BlockHash)
    requires m in dag
  {
    && p in dag[m].justifications && p in dag && dag[p].sender == t
    && forall q :: q in dag[m].justifications && q in dag && dag[q].sender == t ==> p <= q
  }

  /** Whoever the sender had heard from last time, it now cites at least that: the parent of its own last
      message is an ancestor of the justification by the same validator. */
  ghost predicate KeepsViews(dag: Dag, b: Block) {
    forall m, j, p ::
      FirstOwn(dag, b, m) && m in dag && j in b.justifications && j in dag && FirstParent(dag, m, dag[j].sender, p) ==>
        Above(dag, j, p)
  }

  lemma {:induction false} OwnIs(log: seq<Entry>, b: Block, k: nat)
    requires Linked(log) && Present(Metas(log), b) && k <= |b.justifications|
    requires forall i :: 0 <= i < k ==> Metas(log)[b.justifications[i]].sender != b.sender
    ensures var own := OwnJustification(Messages(log), b.justifications[k..], b.sender);
            && (own == [] ==> forall m :: !FirstOwn(Metas(log), b, m))
            && (own != [] ==> FirstOwn(Metas(log), b, own[0].id) && own[0].id in Metas(log) && own[0] == Messages(log)[own[0].id])
    decreases |b.justifications| - k
  {
    hide Messages, Metas;
    var js := b.justifications;
    if k < |js| {
      assert js[k..][0] == js[k] && js[k..][1..] == js[k + 1..];
      if Metas(log)[js[k]].sender == b.sender {
        assert OwnAt(Metas(log), b, k);
      } else {
        OwnIs(log, b, k + 1);
      }
    }
  }

  lemma OneFirstOwn(dag: Dag, b: Block, m: BlockHash, n: BlockHash)
    requires FirstOwn(dag, b, m) && FirstOwn(dag, b, n)
    ensures m == n
  {
    var i :| OwnAt(dag, b, i) && b.justifications[i] == m;
    var k :| OwnAt(dag, b, k) && b.justifications[k] == n;
  }

  /** What an ancestor has seen, its descendant has seen; and a message has seen itself. */
  lemma SeenWithin(log: seq<Entry>, j: BlockHash, p: BlockHash)
    requires Linked(log) && j in Metas(log) && p in Metas(log)
    ensures Messages(log)[p].seen <= Messages(log)[j].seen <==> Above(Metas(log), j, p)
  {
    hide Metas, Messages, Above;
    SeenSteps(log, p);
    SeenIsAncestry(log, j, p);
    if Above(Metas(log), j, p) {
      forall a | a in Messages(log)[p].seen ensures a in Messages(log)[j].seen {
        SeenIsAncestry(log, p, a);
        AboveTransitive(Metas(log), j, p, a);
        SeenIsAncestry(log, j, a);
      }
    }
  }

  lemma {:induction false} CitesJoined(dag: Dag, a: seq<BlockHash>, b: seq<BlockHash>)
    requires Cites(dag, a) && Cites(dag, b) && a[|a| - 1] == b[0]
    ensures Cites(dag, a + b[1..]) && (a + b[1..])[0] == a[0] && (a + b[1..])[|a| + |b| - 2] == b[|b| - 1]
  {
    if |a| == 1 {
      assert a + b[1..] == b;
    } else {
      CitesJoined(dag, a[1..], b);
      assert (a + b[1..])[1..] == a[1..] + b[1..];
    }
  }

  lemma AboveTransitive(dag: Dag, j: BlockHash, p: BlockHash, a: BlockHash)
    requires Above(dag, j, p) && Above(dag, p, a)
    ensures Above(dag, j, a)
  {
    var x :| Cites(dag, x) && x[0] == j && x[|x| - 1] == p;
    var y :| Cites(dag, y) && y[0] == p && y[|y| - 1] == a;
    CitesJoined(dag, x, y);
  }

  /** The check passes exactly when no view regresses, by ancestry. */
  lemma RegressionIff(log: seq<Entry>, b: Block)
    requires Linked(log) && Present(Metas(log), b)
    ensures NoRegression(Messages(log), b) <==> KeepsViews(Metas(log), b)
  {
    hide Metas, Messages, Above, FirstOwn;
    var dag, msgs := Metas(log), Messages(log);
    OwnIs(log, b, 0);
    assert b.justifications[0..] == b.justifications;
    var own := OwnJustification(msgs, b.justifications, b.sender);
    if own != [] {
      var m := own[0].id;
      forall j | j in b.justifications
        ensures NothingLost(msgs, own[0], msgs[j]) <==>
                  forall p :: FirstParent(dag, m, dag[j].sender, p) ==> Above(dag, j, p)
      {
        LostIff(log, m, j);
      }
      forall n | FirstOwn(dag, b, n) ensures n == m { OneFirstOwn(dag, b, n, m); }
    }
  }

  lemma LostIff(log: seq<Entry>, m: BlockHash, j: BlockHash)
    requires Linked(log) && m in Metas(log) && j in Metas(log)
    ensures NothingLost(Messages(log), Messages(log)[m], Messages(log)[j]) <==>
              forall p :: FirstParent(Metas(log), m, Metas(log)[j].sender, p) ==> Above(Metas(log), j, p)
  {
    hide Metas, Messages, Above;
    forall p | p in Metas(log)
      ensures Messages(log)[p].seen <= Messages(log)[j].seen <==> Above(Metas(log), j, p)
    {
      SeenWithin(log, j, p);
    }
  }

  /** An honest block passes: it cites, of every validator, a descendant of what its last message cited. */
  lemma HonestBlocksPass(log: seq<Entry>, b: Block, m: BlockHash)
    requires Linked(log) && Present(Metas(log), b) && FirstOwn(Metas(log), b, m) && m in Metas(log)
    requires forall j, p :: j in b.justifications && j in Metas(log) && FirstParent(Metas(log), m, Metas(log)[j].sender, p) ==>
               Above(Metas(log), j, p)
    ensures NoRegression(Messages(log), b)
  {
    hide Metas, Messages, Above, FirstOwn, FirstParent, NoRegression;
    forall n | FirstOwn(Metas(log), b, n) ensures n == m { OneFirstOwn(Metas(log), b, n, m); }
    RegressionIff(log, b);
  }

  /** What a message has seen and cites does not change as the log grows. */
  lemma AboveKept(log: seq<Entry>, h: BlockHash, a: BlockHash)
    requires Linked(log) && log != [] && h in Metas(Init(log))
    ensures h in Metas(log) && (Above(Metas(log), h, a) <==> Above(Metas(Init(log)), h, a))
  {
    hide Above;
    MessageKept(log, h);
    SeenIsAncestry(log, h, a);
    SeenIsAncestry(Init(log), h, a);
  }

  lemma {:induction false} ViewsKept(log: seq<Entry>, cfg: Config, h: BlockHash)
    requires ValidRun(log, cfg) && h in Metas(log) && !Metas(log)[h].failed
    ensures KeepsViews(Metas(log), Store(log)[h])
  {
    hide SummaryHolds, Above;
    RunLinked(log, cfg);
    var init, b := Init(log), Store(log)[h];
    RunLinked(init, cfg);
    JustificationsStored(log, h);
    if h == Last(log).block.hash {
      LastPassed(log, cfg);
      PassedKeeps(init, b, cfg);
    } else {
      ViewsKept(init, cfg, h);
      JustificationsStored(init, h);
    }
    ViewsLift(log, b);
  }

  lemma PassedKeeps(log: seq<Entry>, b: Block, cfg: Config)
    requires Linked(log) && SummaryHolds(Metas(log), Store(log), Messages(log), b, cfg)
    ensures KeepsViews(Metas(log), b) && Present(Metas(log), b)
  {
    hide Metas, Messages, Store, KeepsViews, NoRegression, NumberFits, SequenceFits, NoRepeatAbove;
    RegressionIff(log, b);
  }

  lemma ViewsLift(log: seq<Entry>, b: Block)
    requires Linked(log) && log != [] && Present(Metas(Init(log)), b) && KeepsViews(Metas(Init(log)), b)
    ensures KeepsViews(Metas(log), b)
  {
    hide Above;
    var dag, below := Metas(log), Metas(Init(log));
    assert forall h :: h in below ==> h in dag && dag[h] == below[h];
    forall m, j, p | FirstOwn(dag, b, m) && m in dag && j in b.justifications && j in dag
                  && FirstParent(dag, m, dag[j].sender, p) ensures Above(dag, j, p)
    {
      OwnBelow(log, b, m);
      JustificationsStored(Init(log), m);
      assert FirstParent(below, m, below[j].sender, p);
      AboveKept(log, j, p);
    }
  }

  lemma OwnBelow(log: seq<Entry>, b: Block, m: BlockHash)
    requires Linked(log) && log != [] && Present(Metas(Init(log)), b) && FirstOwn(Metas(log), b, m)
    ensures m in Metas(Init(log)) && FirstOwn(Metas(Init(log)), b, m)
  {
    var dag, below := Metas(log), Metas(Init(log));
    var i :| OwnAt(dag, b, i) && b.justifications[i] == m;
    assert OwnAt(below, b, i);
  }

  /** In every run, what the last message of a validator had seen through another one, each of its non-failed blocks
      still sees through whatever it now cites of that one. */
  lemma ViewsNeverRegress(
    log: seq<Entry>, cfg: Config, h: BlockHash, m: BlockHash, j: BlockHash, p: BlockHash, a: BlockHash)
    requires ValidRun(log, cfg) && h in Metas(log) && !Metas(log)[h].failed
    requires FirstOwn(Metas(log), Store(log)[h], m) && m in Metas(log)
    requires j in Metas(log)[h].justifications && j in Metas(log) && FirstParent(Metas(log), m, Metas(log)[j].sender, p)
    requires Above(Metas(log), p, a)
    ensures Above(Metas(log), j, a)
  {
    hide ValidRun, Metas, Above, FirstOwn, FirstParent;
    ViewsKept(log, cfg, h);
    assert j in Store(log)[h].justifications;
    AboveTransitive(Metas(log), j, p, a);
  }
}
