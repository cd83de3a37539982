/** No deploy runs twice along any chain of non-failed blocks, at any distance, although
    the search for repeats stops at a window of heights: a repeat outside the window would
    have to be expired in the later block or in the future of the earlier one. */
module RepeatSafety {
  import opened Blocks
  import opened Validation
  import opened History

  ghost predicate SameValidity(b: Block, c: Block) {
    forall i, k :: 0 <= i < |b.deploys| && 0 <= k < |c.deploys| && b.deploys[i].key == c.deploys[k].key ==>
                     b.deploys[i].validAfter == c.deploys[k].validAfter
  }

  /** A deploy key determines the height after which the deploy is valid: the signature covers it. */
  ghost predicate KeysFixValidity(store: BlockStore) {
    forall g, h :: g in store && h in store ==> SameValidity(store[g], store[h])
  }

  /** `path` leads from a non-failed block down to an ancestor, through non-failed justifications. */
  ghost predicate Ancestry(dag: Dag, path: seq<BlockHash>) {
    && |path| > 0
    && (forall i :: 0 <= i < |path| ==> path[i] in dag && !dag[path[i]].failed)
    && (forall i :: 0 <= i < |path| - 1 ==> path[i + 1] in dag[path[i]].justifications)
  }

  /** A non-failed block lies above its non-failed justifications and holds no deploy of its own future. */
  lemma {:induction false} PlacedInTime(log: seq<Entry>, cfg: Config, h: BlockHash)
    requires ValidRun(log, cfg) && h in Metas(log) && !Metas(log)[h].failed
    ensures NoFutureDeploy(Store(log)[h])
    ensures forall p :: p in Metas(log)[h].justifications && p in Metas(log) && !Metas(log)[p].failed ==>
              Metas(log)[p].number < Metas(log)[h].number
  {
    var init, last := Init(log), Last(log);
    if h != last.block.hash {
      PlacedInTime(init, cfg, h);
      JustificationsStored(init, h);
    } else {
      forall p | p in Metas(log)[h].justifications && p in Metas(log) && !Metas(log)[p].failed
        ensures Metas(log)[p].number < Metas(log)[h].number
      {
        assert IsRoot(Metas(init), last.block, p);
      }
    }
  }

  /** Numbers fall along an ancestry. */
  lemma {:induction false} Descends(log: seq<Entry>, cfg: Config, path: seq<BlockHash>, i: nat)
    requires ValidRun(log, cfg) && Ancestry(Metas(log), path) && i < |path|
    ensures Metas(log)[path[|path| - 1]].number <= Metas(log)[path[i]].number
    decreases |path| - i
  {
    hide ValidRun, Metas, Store, NoFutureDeploy;
    if i < |path| - 1 {
      PlacedInTime(log, cfg, path[i]);
      Descends(log, cfg, path, i + 1);
    }
  }

  /** An ancestry that starts before the last insert lies wholly before it. */
  lemma {:induction false} AncestryBelow(log: seq<Entry>, path: seq<BlockHash>)
    requires Linked(log) && log != [] && Ancestry(Metas(log), path) && path[0] in Metas(Init(log))
    ensures Ancestry(Metas(Init(log)), path)
    decreases |path|
  {
    JustificationsStored(Init(log), path[0]);
    if |path| > 1 {
      var rest := path[1..];
      assert rest[0] == path[1] && path[1] in Metas(log)[path[0]].justifications;
      assert Ancestry(Metas(log), rest);
      AncestryBelow(log, rest);
      assert path == [path[0]] + rest;
    }
  }

  /** An ancestor inside the window is one the search reaches. */
  lemma WindowReached(log: seq<Entry>, cfg: Config, b: Block, path: seq<BlockHash>, horizon: int)
    requires ValidRun(log, cfg) && Ancestry(Metas(log), path) && IsRoot(Metas(log), b, path[0])
    requires Metas(log)[path[|path| - 1]].number >= horizon
    ensures Reaches(Metas(log), b, horizon, path[|path| - 1])
  {
    forall i | 0 <= i < |path| - 1 ensures Step(Metas(log), horizon, path[i], path[i + 1]) {
      Descends(log, cfg, path, i + 1);
    }
    assert IsPath(Metas(log), horizon, path);
  }

  /** A deploy of two blocks, expired in neither and in the future of neither, keeps them within the window. */
  lemma SharedInWindow(b: Block, a: Block, expiration: int)
    requires NoExpiredDeploy(b, expiration) && NoFutureDeploy(a) && SameValidity(b, a)
    ensures Shares(b, a) ==> a.number > b.number - expiration
  {
  }

  /** Above the last block, an ancestry continues among the blocks before it. */
  lemma AncestryAbove(log: seq<Entry>, path: seq<BlockHash>)
    requires Linked(log) && log != []
    requires Ancestry(Metas(log), path) && |path| > 1 && path[0] == Last(log).block.hash
    ensures Ancestry(Metas(Init(log)), path[1..]) && IsRoot(Metas(Init(log)), Last(log).block, path[1])
    ensures path[|path| - 1] in Metas(Init(log)) && !Metas(Init(log))[path[|path| - 1]].failed && !Last(log).failed
  {
    var up := path[1..];
    assert up[0] == path[1] && path[1] in Last(log).Meta().justifications;
    assert Ancestry(Metas(log), up);
    AncestryBelow(log, up);
  }

  lemma LastStored(log: seq<Entry>, h: BlockHash)
    requires Linked(log) && log != []
    ensures Last(log).block.hash in Store(log) && Store(log)[Last(log).block.hash] == Last(log).block
    ensures h in Metas(Init(log)) ==> h in Store(log) && Store(log)[h] == Store(Init(log))[h]
    ensures !Last(log).failed == !Metas(log)[Last(log).block.hash].failed
  {
  }

  /** A block that passed shares nothing with `a`, which is outside its window or was searched. */
  lemma PassedSharesNothing(dag: Dag, store: BlockStore, msgs: MessageMap, b: Block, cfg: Config, a: BlockHash)
    requires SummaryHolds(dag, store, msgs, b, cfg) && a in store
    requires SameValidity(b, store[a]) && NoFutureDeploy(store[a])
    requires store[a].number >= b.number - cfg.expiration ==> Reaches(dag, b, b.number - cfg.expiration, a)
    ensures !Shares(b, store[a])
  {
    hide Shares, SameValidity, Reaches, NumberFits, SequenceFits, NoRegression;
    SharedInWindow(b, store[a], cfg.expiration);
  }

  lemma LastRepeatsNothing(log: seq<Entry>, cfg: Config, path: seq<BlockHash>)
    requires log != [] && ValidRun(log, cfg) && KeysFixValidity(Store(log))
    requires Ancestry(Metas(log), path) && |path| > 1 && path[0] == Last(log).block.hash
    ensures !Shares(Store(log)[path[0]], Store(log)[path[|path| - 1]])
  {
    hide ValidRun, Ancestry, Metas, Store, Linked, Messages, Shares, SameValidity, Reaches, NoFutureDeploy,
         SummaryHolds;
    RunLinked(log, cfg);
    var init, b, up, a := Init(log), Last(log).block, path[1..], path[|path| - 1];
    AncestryAbove(log, path);
    LastPassed(log, cfg);
    LastStored(log, a);
    PlacedInTime(init, cfg, a);
    if Metas(init)[a].number >= b.number - cfg.expiration {
      assert up[0] == path[1] && up[|up| - 1] == a;
      WindowReached(init, cfg, b, up, b.number - cfg.expiration);
    }
    assert SameValidity(Store(log)[b.hash], Store(log)[a]);
    PassedSharesNothing(Metas(init), Store(init), Messages(init), b, cfg, a);
  }

  /** In every run, no block shares a deploy with an ancestor reached through non-failed blocks. */
  lemma {:induction false} NoDeployRepeats(log: seq<Entry>, cfg: Config, path: seq<BlockHash>)
    requires ValidRun(log, cfg) && KeysFixValidity(Store(log))
    requires Ancestry(Metas(log), path) && |path| > 1
    ensures !Shares(Store(log)[path[0]], Store(log)[path[|path| - 1]])
    decreases |log|
  {
    hide Shares, SummaryHolds, KeysFixValidity;
    assert path[0] in Metas(log);
    if path[0] == Last(log).block.hash {
      LastRepeatsNothing(log, cfg, path);
    } else {
      AncestryBelow(log, path);
      KeysFixBelow(log);
      NoDeployRepeats(Init(log), cfg, path);
    }
  }

  lemma KeysFixBelow(log: seq<Entry>)
    requires log != [] && Linked(log) && KeysFixValidity(Store(log))
    ensures KeysFixValidity(Store(Init(log)))
  {
    var store, below := Store(log), Store(Init(log));
    assert forall h :: h in below ==> h in store && store[h] == below[h];
  }
}
