/** Restart: rebuilding the message state from the metadata in height order. The height map lists
    only blocks that did not fail, so the rebuild succeeds exactly when no such block cites
    a failed one, and then restores their messages and every sender's latest message. */
module Rebuild {
  import opened Blocks
  import opened Validation
  import opened History
  import opened RepeatSafety
  import opened MessageDag
  import opened DagStorage

  /** Non-failed blocks lie above the non-failed blocks they cite. */
  ghost predicate Layered(dag: Dag) {
    forall h, j :: h in dag && !dag[h].failed && j in dag[h].justifications && j in dag && !dag[j].failed ==>
      dag[j].number < dag[h].number
  }

  ghost predicate NoneCitesFailed(dag: Dag) {
    forall h :: h in NonFailed(dag) ==> dag[h].justifications <= NonFailed(dag)
  }

  /** Every message of `msgs` is the one its metadata and the other messages determine. */
  ghost predicate Consistent(dag: Dag, msgs: MessageMap) {
    msgs.Keys <= dag.Keys
    && forall h :: h in msgs ==> dag[h].justifications <= msgs.Keys && msgs[h] == MessageOf(dag[h], msgs)
  }

  /** The state a rebuild must reach. */
  ghost predicate IsRebuilt(dag: Dag, st: MessageState) {
    st.msgs.Keys == NonFailed(dag) && Consistent(dag, st.msgs) && IsLatest(st.latest, st.msgs, NonFailed(dag))
  }

  method LeastOf(ns: set<nat>) returns (n: nat)
    requires ns != {}
    ensures n in ns && forall k :: k in ns ==> n <= k
  {
    n :| n in ns;
    var todo := ns - {n};
    while todo != {}
      invariant todo <= ns && n in ns && forall k :: k in ns && k !in todo ==> n <= k
      decreases todo
    {
      var k :| k in todo;
      if k < n { n := k; }
      todo := todo - {k};
    }
  }

  /** Adding a message for a new block keeps the others as they are. */
  lemma ConsistentInsert(dag: Dag, msgs: MessageMap, m: Metadata)
    requires Consistent(dag, msgs) && m.hash in dag && dag[m.hash] == m && m.hash !in msgs && m.justifications <= msgs.Keys
    ensures Consistent(dag, msgs[m.hash := MessageOf(m, msgs)])
  {
    var more := msgs[m.hash := MessageOf(m, msgs)];
    forall h | h in more ensures dag[h].justifications <= more.Keys && more[h] == MessageOf(dag[h], more) {
      assert dag[h].justifications <= msgs.Keys;
      SeenKept(dag[h].justifications, msgs, m.hash, MessageOf(m, msgs));
      hide SeenBy;
    }
  }

  /** A message under a new hash changes nothing that was seen before. */
  lemma SeenKept(js: set<BlockHash>, msgs: MessageMap, h: BlockHash, msg: Message)
    requires js <= msgs.Keys && h !in msgs
    ensures SeenBy(js, msgs[h := msg]) == SeenBy(js, msgs)
  {
    var more := msgs[h := msg];
    assert forall j :: j in js ==> more[j] == msgs[j];
    forall g ensures g in SeenBy(js, more) <==> g in SeenBy(js, msgs) {
      if g in SeenBy(js, msgs) {
        var j :| j in js && g in msgs[j].seen;
        assert g in more[j].seen;
      }
    }
  }

  /** Everything that did not fail and lies below level `n` has been rebuilt. */
  ghost predicate Reached(dag: Dag, n: nat, msgs: MessageMap) {
    && Consistent(dag, msgs)
    && msgs.Keys <= NonFailed(dag)
    && (forall h :: h in NonFailed(dag) && dag[h].number < n ==> h in msgs)
  }

  /** A block at level `n` that cites no failed block finds all its justifications rebuilt. */
  lemma JustificationsRebuilt(dag: Dag, n: nat, msgs: MessageMap, h: BlockHash)
    requires Layered(dag) && Reached(dag, n, msgs) && h in NonFailed(dag) && dag[h].number == n
    ensures dag[h].justifications <= NonFailed(dag) ==> dag[h].justifications <= msgs.Keys
  {
  }

  /** One block of a level: skip it if known, else build and insert its message. */
  method RebuildOne(dag: Dag, h: BlockHash, st: MessageState) returns (ok: bool, after: MessageState)
    ensures h in st.msgs ==> ok && after == st
    ensures h !in st.msgs ==> (ok <==> h in dag && dag[h].justifications <= st.msgs.Keys)
    ensures ok && h !in st.msgs ==> after == st.InsertMsg(MessageOf(dag[h], st.msgs))
  {
    after := st;
    if h in st.msgs { return true, st; }
    if h !in dag { return false, st; }
    var found, msg := MessageFrom(dag[h], st.msgs);
    if !found { return false, st; }
    ok, after := true, st.InsertMsg(msg);
  }

  /** `level` holds the blocks of number `n`, and everything below it has been rebuilt. */
  ghost predicate LevelReady(dag: Dag, n: nat, level: set<BlockHash>, st: MessageState) {
    && Layered(dag)
    && Reached(dag, n, st.msgs)
    && IsLatest(st.latest, st.msgs, st.msgs.Keys)
    && (forall h :: h in level <==> h in NonFailed(dag) && dag[h].number == n)
  }

  /** All blocks of one level, in any order. */
  method RebuildLevel(dag: Dag, ghost n: nat, level: set<BlockHash>, st: MessageState)
    returns (ok: bool, after: MessageState)
    ensures ok ==> after.msgs.Keys == st.msgs.Keys + level
    ensures LevelReady(dag, n, level, st) ==>
              (ok <==> forall h :: h in level && h !in st.msgs ==> dag[h].justifications <= NonFailed(dag))
    ensures LevelReady(dag, n, level, st) && ok ==> LevelReady(dag, n, level, after)
  {
    hide Layered, IsLatest, SeenBy;
    after := st;
    var todo := level;
    while todo != {}
      invariant todo <= level && after.msgs.Keys == st.msgs.Keys + (level - todo)
      invariant LevelReady(dag, n, level, st) ==> LevelReady(dag, n, level, after)
      decreases todo
    {
      var h :| h in todo;
      var before := after;
      ok, after := RebuildOne(dag, h, before);
      if LevelReady(dag, n, level, before) { OneRebuilt(dag, n, level, h, before); }
      if !ok { return false, after; }
      todo := todo - {h};
    }
    ok := true;
  }

  lemma OneRebuilt(dag: Dag, n: nat, level: set<BlockHash>, h: BlockHash, st: MessageState)
    requires LevelReady(dag, n, level, st) && h in level
    ensures dag[h].justifications <= NonFailed(dag) ==> dag[h].justifications <= st.msgs.Keys
    ensures h !in st.msgs && dag[h].justifications <= st.msgs.Keys ==>
              LevelReady(dag, n, level, st.InsertMsg(MessageOf(dag[h], st.msgs)))
  {
    hide Layered, Consistent, IsLatest;
    JustificationsRebuilt(dag, n, st.msgs, h);
    if h !in st.msgs && dag[h].justifications <= st.msgs.Keys {
      ConsistentInsert(dag, st.msgs, dag[h]);
      LatestInserted(st, st.msgs.Keys, MessageOf(dag[h], st.msgs));
      var after := st.InsertMsg(MessageOf(dag[h], st.msgs));
      assert after.msgs.Keys == st.msgs.Keys + {h};
    }
  }

  /** `create`: rebuild level by level, lowest first. */
  method Create(dag: Dag, heights: Heights) returns (ok: bool, st: MessageState)
    ensures IsHeightMap(heights, dag) && Layered(dag) ==> (ok <==> NoneCitesFailed(dag))
    ensures IsHeightMap(heights, dag) && Layered(dag) && ok ==> IsRebuilt(dag, st)
  {
    hide Layered, LevelReady;
    st := EmptyState;
    ghost var good := IsHeightMap(heights, dag) && Layered(dag);
    var todo := heights.Keys;
    while todo != {}
      invariant todo <= heights.Keys
      invariant good ==> Between(dag, heights, todo, st)
      decreases todo
    {
      var n := LeastOf(todo);
      if good { LevelReached(dag, heights, todo, st, n); }
      var level := heights[n];
      ghost var before := st;
      ok, st := RebuildLevel(dag, n, level, st);
      if !ok { return false, st; }
      if good { LevelDone(dag, heights, todo, before, st, n); }
      todo := todo - {n};
    }
    ok := true;
    if good { AllRebuilt(dag, heights, st); }
  }

  /** The lowest level left is ready. */
  lemma LevelReached(dag: Dag, heights: Heights, todo: set<nat>, st: MessageState, n: nat)
    requires IsHeightMap(heights, dag) && Layered(dag) && todo <= heights.Keys && Between(dag, heights, todo, st)
    requires n in todo && forall k :: k in todo ==> n <= k
    ensures LevelReady(dag, n, heights[n], st)
  {
    hide Layered, IsLatest, Consistent;
  }

  lemma LevelDone(dag: Dag, heights: Heights, todo: set<nat>, before: MessageState, st: MessageState, n: nat)
    requires IsHeightMap(heights, dag) && todo <= heights.Keys && Between(dag, heights, todo, before)
    requires n in todo && LevelReady(dag, n, heights[n], st) && st.msgs.Keys == before.msgs.Keys + heights[n]
    ensures Between(dag, heights, todo - {n}, st)
  {
    hide Layered, IsLatest, Consistent;
  }

  lemma AllRebuilt(dag: Dag, heights: Heights, st: MessageState)
    requires Between(dag, heights, {}, st)
    ensures IsRebuilt(dag, st) && NoneCitesFailed(dag)
  {
    hide IsLatest;
    assert st.msgs.Keys == NonFailed(dag);
  }

  /** Every block of a level not in `todo` has been rebuilt, and nothing else. */
  ghost predicate Between(dag: Dag, heights: Heights, todo: set<nat>, st: MessageState) {
    && Consistent(dag, st.msgs)
    && IsLatest(st.latest, st.msgs, st.msgs.Keys)
    && (forall h :: h in st.msgs ==> h in NonFailed(dag) && dag[h].number !in todo)
    && (forall h :: h in NonFailed(dag) && dag[h].number !in todo ==> h in st.msgs)
  }

  // ----- after a valid run

  lemma RunLayered(log: seq<Entry>, cfg: Config)
    requires ValidRun(log, cfg)
    ensures Layered(Metas(log))
  {
    var dag := Metas(log);
    forall h, j | h in dag && !dag[h].failed && j in dag[h].justifications && j in dag && !dag[j].failed
      ensures dag[j].number < dag[h].number
    {
      PlacedInTime(log, cfg, h);
    }
  }

  lemma {:induction false} MessagesConsistent(log: seq<Entry>)
    requires Linked(log)
    ensures Consistent(Metas(log), Messages(log))
  {
    if log != [] {
      var dag, below, last := Metas(log), Metas(Init(log)), Last(log);
      MessagesConsistent(Init(log));
      assert Consistent(dag, Messages(Init(log)));
      ConsistentInsert(dag, Messages(Init(log)), last.Meta());
    }
  }

  lemma {:induction false} RunDistinct(log: seq<Entry>, cfg: Config)
    requires ValidRun(log, cfg)
    ensures Linked(log) && Distinct(Messages(log))
  {
    hide SummaryHolds;
    if log != [] {
      RunDistinct(Init(log), cfg);
      DistinctInserted(Messages(Init(log)), MessageOf(Last(log).Meta(), Messages(Init(log))));
    }
  }

  /** Two consistent message maps agree on a block whose whole ancestry lies in both. */
  lemma {:induction false} ConsistentAgree(dag: Dag, a: MessageMap, b: MessageMap, h: BlockHash)
    requires Layered(dag) && NoneCitesFailed(dag) && Consistent(dag, a) && Consistent(dag, b)
    requires NonFailed(dag) <= a.Keys && NonFailed(dag) <= b.Keys && h in NonFailed(dag)
    ensures a[h] == b[h]
    decreases dag[h].number
  {
    forall j | j in dag[h].justifications ensures a[j] == b[j] {
      ConsistentAgree(dag, a, b, j);
    }
    assert SeenBy(dag[h].justifications, a) == SeenBy(dag[h].justifications, b);
  }

  /** The latest messages are determined by the promoted messages. */
  lemma LatestDetermined(
    x: map<Validator, Message>, a: MessageMap, y: map<Validator, Message>, b: MessageMap, promoted: set<BlockHash>)
    requires IsLatest(x, a, promoted) && IsLatest(y, b, promoted) && Distinct(a)
    requires forall h :: h in promoted ==> a[h] == b[h]
    ensures x == y
  {
    forall s | s in x ensures s in y && x[s] == y[s] {
      assert a[x[s].id].sender == s;
    }
    forall s | s in y ensures s in x {
      assert b[y[s].id].sender == s;
    }
  }

  /** What a rebuild restores after any valid run: the messages of the non-failed blocks and the latest messages. */
  lemma RestartRestores(log: seq<Entry>, cfg: Config, latest: map<Validator, Message>, st: MessageState)
    requires ValidRun(log, cfg) && Linked(log) && IsLatest(latest, Messages(log), NonFailed(Metas(log)))
    requires IsRebuilt(Metas(log), st)
    ensures st.latest == latest
    ensures forall h :: h in st.msgs ==> st.msgs[h] == Messages(log)[h]
    ensures st.msgs == Messages(log) <==> forall h :: h in Metas(log) ==> !Metas(log)[h].failed
  {
    hide ValidRun, Linked, Messages, Metas, IsLatest, Distinct;
    var dag := Metas(log);
    RunLayered(log, cfg);
    RunDistinct(log, cfg);
    MessagesConsistent(log);
    assert NoneCitesFailed(dag);
    forall h | h in NonFailed(dag) ensures st.msgs[h] == Messages(log)[h] {
      ConsistentAgree(dag, st.msgs, Messages(log), h);
    }
    LatestDetermined(latest, Messages(log), st.latest, st.msgs, NonFailed(dag));
    assert st.msgs == Messages(log) ==> st.msgs.Keys == Messages(log).Keys;
  }

  // ----- a restart that fails

  function Genesis(): Block { Block(0, 0, 0, 0, [], [], map[]) }

  function Rogue(): Block { Block(1, 0, 1, 0, [0], [], map[]) }

  /** The sender of the failed block holds no stake any more, as after a slash. */
  function Citing(): Block { Block(2, 1, 2, 0, [0, 1], [], map[2 := 1]) }

  lemma ReachedStored(dag: Dag, b: Block, horizon: int, h: BlockHash)
    requires Reaches(dag, b, horizon, h)
    ensures h in dag
  {
    var path :| IsPath(dag, horizon, path) && IsRoot(dag, b, path[0]) && path[|path| - 1] == h;
    if |path| > 1 { assert Step(dag, horizon, path[|path| - 2], path[|path| - 1]); }
  }

  /** Without deploys, a block whose numbers fit and which cites none of its sender's messages passes. */
  lemma EmptyBlockPasses(log: seq<Entry>, b: Block, cfg: Config)
    requires Linked(log) && b.deploys == [] && Present(Metas(log), b)
    requires NumberFits(Metas(log), b) && SequenceFits(Metas(log), b)
    requires forall j :: j in b.justifications ==> Metas(log)[j].sender != b.sender
    ensures SummaryHolds(Metas(log), Store(log), Messages(log), b, cfg)
  {
    hide Metas, Store, Messages, NumberFits, SequenceFits;
    OwnNone(Messages(log), b.justifications, b.sender);
    forall h | Reaches(Metas(log), b, b.number - cfg.expiration, h) ensures h in Store(log) {
      ReachedStored(Metas(log), b, b.number - cfg.expiration, h);
    }
  }

  lemma {:induction false} OwnNone(msgs: MessageMap, js: seq<BlockHash>, sender: Validator)
    requires forall j :: j in js ==> j in msgs && msgs[j].sender != sender
    ensures OwnJustification(msgs, js, sender) == []
  {
    if js != [] {
      assert js[0] in js;
      OwnNone(msgs, js[1..], sender);
    }
  }

  lemma RunExtended(log: seq<Entry>, e: Entry, cfg: Config)
    requires ValidRun(log, cfg) && Linked(log) && e.block.hash !in Metas(log)
    requires e.Meta().justifications <= Metas(log).Keys && !Equivocates(Messages(log), e.Meta())
    requires !e.failed ==>
               SummaryHolds(Metas(log), Store(log), Messages(log), e.block, cfg) && NeglectsNone(Metas(log), e.block)
    ensures ValidRun(log + [e], cfg) && Linked(log + [e])
    ensures Metas(log + [e]) == Metas(log)[e.block.hash := e.Meta()]
  {
    hide SummaryHolds, Equivocates, NeglectsNone;
    LogExtended(log, e);
    assert Init(log + [e]) == log && Last(log + [e]) == e;
  }

  const GenesisEntry := Entry(Genesis(), false)

  const RogueEntry := Entry(Rogue(), true)

  lemma GenesisRun(cfg: Config)
    ensures ValidRun([GenesisEntry], cfg) && Linked([GenesisEntry]) && Metas([GenesisEntry]) == map[0 := GenesisEntry.Meta()]
  {
    hide SummaryHolds, NumberFits, SequenceFits;
    ExampleFits();
    EmptyBlockPasses([], Genesis(), cfg);
    RunExtended([], GenesisEntry, cfg);
    assert [] + [GenesisEntry] == [GenesisEntry];
  }

  lemma RogueRun(cfg: Config)
    ensures ValidRun([GenesisEntry, RogueEntry], cfg) && Linked([GenesisEntry, RogueEntry])
    ensures Metas([GenesisEntry, RogueEntry]) == map[0 := GenesisEntry.Meta(), 1 := RogueEntry.Meta()]
  {
    hide SummaryHolds, Metas, ValidRun, Linked;
    GenesisRun(cfg);
    assert RogueEntry.Meta().justifications == {0};
    RunExtended([GenesisEntry], RogueEntry, cfg);
    assert [GenesisEntry] + [RogueEntry] == [GenesisEntry, RogueEntry];
  }

  const CitingEntry := Entry(Citing(), false)

  const FailingRun := [GenesisEntry, RogueEntry, CitingEntry]

  lemma CitingPasses(cfg: Config)
    ensures var two := [GenesisEntry, RogueEntry];
            && Linked(two)
            && SummaryHolds(Metas(two), Store(two), Messages(two), Citing(), cfg)
            && NeglectsNone(Metas(two), Citing())
            && !Equivocates(Messages(two), CitingEntry.Meta())
  {
    hide SummaryHolds, NumberFits, SequenceFits, Metas, ValidRun, Linked, Messages;
    RogueRun(cfg);
    ExampleFits();
    EmptyBlockPasses([GenesisEntry, RogueEntry], Citing(), cfg);
  }

  lemma CitingRun(cfg: Config)
    ensures ValidRun(FailingRun, cfg)
    ensures Metas(FailingRun) == map[0 := GenesisEntry.Meta(), 1 := RogueEntry.Meta(), 2 := CitingEntry.Meta()]
  {
    hide SummaryHolds, NeglectsNone, Equivocates, Messages, Store, Metas, ValidRun, Linked;
    RogueRun(cfg);
    CitingPasses(cfg);
    assert CitingEntry.Meta().justifications == {0, 1};
    RunExtended([GenesisEntry, RogueEntry], CitingEntry, cfg);
    assert [GenesisEntry, RogueEntry] + [CitingEntry] == FailingRun;
  }

  /** A valid run whose stores the rebuild refuses: a good block cites a failed one. */
  lemma RestartCanFail(cfg: Config)
    ensures ValidRun(FailingRun, cfg) && Layered(Metas(FailingRun)) && !NoneCitesFailed(Metas(FailingRun))
  {
    hide Metas, ValidRun, Layered;
    CitingRun(cfg);
    var dag := Metas(FailingRun);
    assert 1 in dag[2].justifications;
    assert 2 in NonFailed(dag) && 1 !in NonFailed(dag);
    RunLayered(FailingRun, cfg);
  }

  /** The rebuild itself, on the stores of that run. */
  method FailingRestart(dag: Dag, heights: Heights) returns (ok: bool)
    requires dag == Metas(FailingRun) && IsHeightMap(heights, dag)
    ensures !ok
  {
    hide ValidRun, Layered, NoneCitesFailed, Metas;
    RestartCanFail(Config("", 0, 0));
    var st;
    ok, st := Create(dag, heights);
  }

  /** A good block cites a failed one whose sender holds no stake in it. */
  ghost predicate CitesUnstaked(log: seq<Entry>) {
    exists h, j :: h in NonFailed(Metas(log)) && j in Metas(log)[h].justifications && j in Metas(log) && Metas(log)[j].failed
                && Stake(Store(log)[h], Metas(log)[j].sender) == 0
  }

  lemma {:induction false} GoodNeglectsNone(log: seq<Entry>, cfg: Config, h: BlockHash)
    requires ValidRun(log, cfg) && h in NonFailed(Metas(log))
    ensures NeglectsNone(Metas(log), Store(log)[h])
  {
    hide SummaryHolds;
    if h == Last(log).block.hash {
      LastPassed(log, cfg);
    } else {
      GoodNeglectsNone(Init(log), cfg, h);
      JustificationsStored(Init(log), h);
    }
  }

  /** After a valid run the rebuild fails exactly when a good block cites a failed one after its sender lost
      its stake; while every failed sender stays bonded, it succeeds. */
  lemma RestartFailsIff(log: seq<Entry>, cfg: Config)
    requires ValidRun(log, cfg)
    ensures !NoneCitesFailed(Metas(log)) <==> CitesUnstaked(log)
  {
    hide ValidRun, Metas, Store;
    if !NoneCitesFailed(Metas(log)) {
      var h :| h in NonFailed(Metas(log)) && !(Metas(log)[h].justifications <= NonFailed(Metas(log)));
      var j :| j in Metas(log)[h].justifications && j !in NonFailed(Metas(log));
      RunLinked(log, cfg);
      JustificationsStored(log, h);
      GoodNeglectsNone(log, cfg, h);
      assert j in Store(log)[h].justifications;
    }
  }

  lemma ExampleFits()
    ensures NumberFits(map[], Genesis()) && SequenceFits(map[], Genesis())
    ensures var dag := map[0 := MetadataOf(Genesis(), false), 1 := MetadataOf(Rogue(), true)];
            NumberFits(dag, Citing()) && SequenceFits(dag, Citing())
  {
    var dag: Dag := map[0 := MetadataOf(Genesis(), false), 1 := MetadataOf(Rogue(), true)];
    assert IsRoot(dag, Citing(), 0);
  }

  // ----- the height map after a restart

  ghost predicate GapFree(ns: set<nat>) {
    forall a, b, c :: a in ns && c in ns && a <= b <= c ==> b in ns
  }

  function Range(lo: nat, hi: nat): (r: set<nat>)
    requires lo <= hi
    ensures forall n :: n in r <==> lo <= n < hi
    ensures |r| == hi - lo
    decreases hi - lo
  {
    if lo == hi then {} else Range(lo, hi - 1) + {hi - 1}
  }

  lemma SubsetSameSize<T>(a: set<T>, b: set<T>)
    requires a <= b
    ensures |a| <= |b| && (|a| == |b| <==> a == b)
  {
    assert b == a + (b - a);
  }

  method GreatestOf(ns: set<nat>) returns (n: nat)
    requires ns != {}
    ensures n in ns && forall k :: k in ns ==> k <= n
  {
    n :| n in ns;
    var todo := ns - {n};
    while todo != {}
      invariant todo <= ns && n in ns && forall k :: k in ns && k !in todo ==> k <= n
      decreases todo
    {
      var k :| k in todo;
      if k > n { n := k; }
      todo := todo - {k};
    }
  }

  /** `validate_dag_state`: counting the levels between the lowest and the highest finds every gap. */
  method ValidateHeights(heights: Heights) returns (ok: bool)
    ensures ok <==> GapFree(heights.Keys)
  {
    var ns := heights.Keys;
    if ns == {} { return true; }
    var lo := LeastOf(ns);
    var hi := GreatestOf(ns);
    ok := hi + 1 - lo == |heights|;
    SubsetSameSize(ns, Range(lo, hi + 1));
    if GapFree(ns) { assert ns == Range(lo, hi + 1); }
  }

  /** After a valid run the height map has no gap, so its validation never fails. */
  lemma RunHeightsGapFree(log: seq<Entry>, cfg: Config, heights: Heights)
    requires ValidRun(log, cfg) && IsHeightMap(heights, Metas(log))
    ensures GapFree(heights.Keys)
  {
    forall a, b, c | a in heights.Keys && c in heights.Keys && a <= b <= c ensures b in heights.Keys {
      var h :| h in heights[c];
      var g := NumbersContiguous(log, cfg, h, b);
    }
  }
}
