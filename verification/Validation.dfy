/** The checks a block passes before it enters the DAG (`casper/src/validate.rs`,
    `casper/src/proto_util.rs`), with what each one guarantees stated
    over the DAG rather than over the loop that computes it. */
module Validation {
  import opened Blocks

  // ----- what the checks mean

  predicate Present(dag: Dag, b: Block) {
    forall j :: j in b.justifications ==> j in dag
  }

  /** `h` is a justification of `b` that did not fail validation. */
  predicate IsRoot(dag: Dag, b: Block, h: BlockHash) {
    h in b.justifications && h in dag && !dag[h].failed
  }

  /** The number of `b` is one above the highest of its non-failed justifications, or 0 when there is none. */
  ghost predicate NumberFits(dag: Dag, b: Block) {
    && (forall j :: IsRoot(dag, b, j) ==> dag[j].number < b.number)
    && (b.number > 0 ==> exists j :: IsRoot(dag, b, j) && dag[j].number == b.number - 1)
  }

  /** The same for the sender's own sequence, over failed justifications too. */
  ghost predicate SequenceFits(dag: Dag, b: Block) {
    && (forall j :: j in b.justifications && j in dag && dag[j].sender == b.sender ==> dag[j].seqNum < b.seqNum)
    && (b.seqNum > 0 ==>
          exists j :: j in b.justifications && j in dag && dag[j].sender == b.sender && dag[j].seqNum == b.seqNum - 1)
  }

  predicate Shares(b: Block, c: Block) {
    exists i, k :: 0 <= i < |b.deploys| && 0 <= k < |c.deploys| && b.deploys[i].key == c.deploys[k].key
  }

  /** One step of the search: a non-failed parent at or above the horizon. */
  predicate Step(dag: Dag, horizon: int, h: BlockHash, p: BlockHash) {
    h in dag && p in dag[h].justifications && p in dag && !dag[p].failed && dag[p].number >= horizon
  }

  ghost predicate IsPath(dag: Dag, horizon: int, path: seq<BlockHash>) {
    |path| > 0 && forall i :: 0 <= i < |path| - 1 ==> Step(dag, horizon, path[i], path[i + 1])
  }

  /** What the search can reach: from any non-failed justification, however low, then along steps. */
  ghost predicate Reaches(dag: Dag, b: Block, horizon: int, h: BlockHash) {
    exists path :: IsPath(dag, horizon, path) && IsRoot(dag, b, path[0]) && path[|path| - 1] == h
  }

  /** `m` is the highest number among the non-failed justifications, or -1. */
  ghost predicate IsHighest(dag: Dag, b: Block, m: int) {
    && (forall j :: IsRoot(dag, b, j) ==> dag[j].number <= m)
    && (m == -1 || exists j :: IsRoot(dag, b, j) && dag[j].number == m)
  }

  ghost predicate NoRepeatAbove(dag: Dag, store: BlockStore, b: Block, horizon: int) {
    forall h :: Reaches(dag, b, horizon, h) ==> h in store && !Shares(b, store[h])
  }

  // ----- block and sequence number

  method BlockNumber(dag: Dag, b: Block) returns (o: Outcome)
    ensures o.Fault? <==> !Present(dag, b)
    ensures o.Passed? <==> Present(dag, b) && NumberFits(dag, b)
    ensures o.Rejected? ==> o.status == InvalidBlockNumber
  {
    var highest: int := -1;
    for i := 0 to |b.justifications|
      invariant forall j :: j in b.justifications[..i] ==> j in dag
      invariant forall j :: j in b.justifications[..i] && !dag[j].failed ==> dag[j].number <= highest
      invariant highest >= -1
      invariant highest == -1 || exists j :: j in b.justifications[..i] && !dag[j].failed && dag[j].number == highest
    {
      var j := b.justifications[i];
      if j !in dag { return Fault; }
      if !dag[j].failed && dag[j].number > highest { highest := dag[j].number; }
    }
    o := if highest + 1 == b.number then Passed else Rejected(InvalidBlockNumber);
  }

  method SequenceNumber(dag: Dag, b: Block) returns (o: Outcome)
    ensures o.Fault? <==> !Present(dag, b)
    ensures o.Passed? <==> Present(dag, b) && SequenceFits(dag, b)
    ensures o.Rejected? ==> o.status == InvalidSequenceNumber
  {
    var latest: int := -1;
    for i := 0 to |b.justifications|
      invariant forall j :: j in b.justifications[..i] ==> j in dag
      invariant forall j :: j in b.justifications[..i] && dag[j].sender == b.sender ==> dag[j].seqNum <= latest
      invariant latest >= -1
      invariant latest == -1
             || exists j :: j in b.justifications[..i] && dag[j].sender == b.sender && dag[j].seqNum == latest
    {
      var j := b.justifications[i];
      if j !in dag { return Fault; }
      if dag[j].sender == b.sender && dag[j].seqNum > latest { latest := dag[j].seqNum; }
    }
    o := if latest + 1 == b.seqNum then Passed else Rejected(InvalidSequenceNumber);
  }

  /** The stake of `v` in the bonds of a block. */
  function Stake(b: Block, v: Validator): nat {
    if v in b.bonds then b.bonds[v] else 0
  }

  /** No justification failed while its sender still holds a stake in the block. */
  ghost predicate NeglectsNone(dag: Dag, b: Block) {
    forall j :: j in b.justifications && j in dag && dag[j].failed ==>
      dag[j].sender !in b.bonds || b.bonds[dag[j].sender] == 0
  }

  /** Unlike the other checks this one skips missing justifications. */
  method NeglectedBlock(dag: Dag, b: Block) returns (o: Outcome)
    ensures o.Passed? <==> NeglectsNone(dag, b)
    ensures !o.Passed? ==> o == Rejected(NeglectedInvalidBlock)
  {
    for i := 0 to |b.justifications|
      invariant forall j :: j in b.justifications[..i] && j in dag && dag[j].failed ==> Stake(b, dag[j].sender) == 0
    {
      var j := b.justifications[i];
      if j in dag && dag[j].failed && Stake(b, dag[j].sender) > 0 { return Rejected(NeglectedInvalidBlock); }
    }
    o := Passed;
  }

  // ----- parents

  /** `get_parents_metadata`: the non-failed justifications, or nothing when one is missing. */
  method ParentsMetadata(dag: Dag, js: set<BlockHash>) returns (found: bool, parents: seq<Metadata>)
    ensures found <==> forall j :: j in js ==> j in dag
    ensures found ==> forall m :: m in parents ==> m.hash in js && m.hash in dag && dag[m.hash] == m && !m.failed
    ensures found ==> forall j :: j in js && !dag[j].failed ==> dag[j] in parents
  {
    parents := [];
    var todo := js;
    while todo != {}
      invariant todo <= js
      invariant forall j :: j in js - todo ==> j in dag
      invariant forall m :: m in parents ==> m.hash in js && m.hash in dag && dag[m.hash] == m && !m.failed
      invariant forall j :: j in js - todo && !dag[j].failed ==> dag[j] in parents
      decreases todo
    {
      var j :| j in todo;
      if j !in dag { return false, []; }
      if !dag[j].failed { parents := parents + [dag[j]]; }
      todo := todo - {j};
    }
    found := true;
  }

  method HighestNumber(ms: seq<Metadata>) returns (m: int)
    ensures m >= -1 && forall i :: 0 <= i < |ms| ==> ms[i].number <= m
    ensures m == -1 || exists i :: 0 <= i < |ms| && ms[i].number == m
  {
    m := -1;
    for i := 0 to |ms|
      invariant m >= -1 && forall k :: 0 <= k < i ==> ms[k].number <= m
      invariant m == -1 || exists k :: 0 <= k < i && ms[k].number == m
    {
      if ms[i].number > m { m := ms[i].number; }
    }
  }

  function NotBelow(ms: seq<Metadata>, horizon: int): (r: seq<Metadata>)
    ensures forall m :: m in r <==> m in ms && m.number >= horizon
  {
    if ms == [] then [] else (if ms[0].number >= horizon then [ms[0]] else []) + NotBelow(ms[1..], horizon)
  }

  // ----- repeated deploys

  /** Stores that hold what the search may touch. */
  ghost predicate Stored(dag: Dag, store: BlockStore, h: BlockHash) {
    h in store && h in dag && forall j :: j in dag[h].justifications ==> j in dag
  }

  lemma ReachesRoot(dag: Dag, b: Block, horizon: int, h: BlockHash)
    requires IsRoot(dag, b, h)
    ensures Reaches(dag, b, horizon, h)
  {
    assert IsPath(dag, horizon, [h]) && [h][0] == h && [h][|[h]| - 1] == h;
  }

  lemma ReachesStep(dag: Dag, b: Block, horizon: int, h: BlockHash, p: BlockHash)
    requires Reaches(dag, b, horizon, h) && Step(dag, horizon, h, p)
    ensures Reaches(dag, b, horizon, p)
  {
    var path :| IsPath(dag, horizon, path) && IsRoot(dag, b, path[0]) && path[|path| - 1] == h;
    var longer := path + [p];
    assert IsPath(dag, horizon, longer) && longer[0] == path[0] && longer[|longer| - 1] == p;
  }

  /** A set that holds the roots and is closed under steps holds all that is reachable. */
  lemma {:induction false} ClosedHoldsPath(dag: Dag, b: Block, horizon: int, closed: set<BlockHash>, path: seq<BlockHash>)
    requires forall h :: IsRoot(dag, b, h) ==> h in closed
    requires forall h, p :: h in closed && Step(dag, horizon, h, p) ==> p in closed
    requires IsPath(dag, horizon, path) && IsRoot(dag, b, path[0])
    ensures path[|path| - 1] in closed
    decreases |path|
  {
    if |path| > 1 {
      ClosedHoldsPath(dag, b, horizon, closed, path[..|path| - 1]);
      assert Step(dag, horizon, path[|path| - 2], path[|path| - 1]);
    }
  }

  predicate AnyShared(keys: set<nat>, c: Block) {
    exists k :: 0 <= k < |c.deploys| && c.deploys[k].key in keys
  }

  /** Queue entries are stored and reachable. */
  ghost predicate Sound(dag: Dag, b: Block, horizon: int, queue: seq<Metadata>) {
    forall m :: m in queue ==> m.hash in dag && dag[m.hash] == m && Reaches(dag, b, horizon, m.hash)
  }

  /** Visited blocks are stored and share no deploy key. */
  ghost predicate Clean(dag: Dag, store: BlockStore, keys: set<nat>, visited: set<BlockHash>) {
    forall h :: h in visited ==> h in dag && h in store && !AnyShared(keys, store[h])
  }

  /** Every root, and every step out of a visited block, has been visited or is queued. */
  ghost predicate Covered(dag: Dag, b: Block, horizon: int, visited: set<BlockHash>, queue: seq<Metadata>) {
    && (forall h :: IsRoot(dag, b, h) ==> h in visited || dag[h] in queue)
    && (forall h, p :: h in visited && Step(dag, horizon, h, p) ==> p in visited || dag[p] in queue)
  }

  /** The breadth-first search from `roots` for a block sharing a key of `b`. */
  method Search(dag: Dag, store: BlockStore, b: Block, horizon: int, keys: set<nat>, roots: seq<Metadata>)
    returns (o: Outcome)
    requires Sound(dag, b, horizon, roots) && Covered(dag, b, horizon, {}, roots)
    ensures o.Passed? ==> forall h :: Reaches(dag, b, horizon, h) ==> h in store && !AnyShared(keys, store[h])
    ensures o.Rejected? ==> o.status == InvalidRepeatDeploy
    ensures o.Rejected? ==> exists h :: Reaches(dag, b, horizon, h) && h in store && AnyShared(keys, store[h])
    ensures o.Fault? ==> exists h :: Reaches(dag, b, horizon, h) && !Stored(dag, store, h)
  {
    hide Reaches, AnyShared, Covered, Enqueue, NotBelow;
    var queue, visited := roots, {};
    while queue != []
      invariant Sound(dag, b, horizon, queue)
      invariant Clean(dag, store, keys, visited)
      invariant Covered(dag, b, horizon, visited, queue)
      decreases dag.Keys - visited, |queue|
    {
      var curr := queue[0];
      assert queue == [curr] + queue[1..];
      SkipCovers(dag, b, horizon, visited, curr, queue[1..]);
      queue := queue[1..];
      if curr.hash !in visited {
        if curr.hash !in store { return Fault; }
        if AnyShared(keys, store[curr.hash]) { return Rejected(InvalidRepeatDeploy); }
        var complete, parents := ParentsMetadata(dag, curr.justifications);
        if !complete { return Fault; }
        VisitCovers(dag, b, horizon, visited, queue, curr, parents);
        visited := visited + {curr.hash};
        queue := Enqueue(queue, NotBelow(parents, horizon), visited);
      }
    }
    CoveredHoldsAll(dag, b, horizon, visited);
    o := Passed;
  }

  function Enqueue(queue: seq<Metadata>, next: seq<Metadata>, visited: set<BlockHash>): (r: seq<Metadata>)
    ensures forall m :: m in r <==> m in queue || (m in next && m.hash !in visited)
    decreases |next|
  {
    if next == [] then queue
    else Enqueue(if next[0].hash in visited then queue else queue + [next[0]], next[1..], visited)
  }

  lemma SkipCovers(dag: Dag, b: Block, horizon: int, visited: set<BlockHash>, curr: Metadata, queue: seq<Metadata>)
    requires Covered(dag, b, horizon, visited, [curr] + queue)
    ensures curr.hash in visited ==> Covered(dag, b, horizon, visited, queue)
  {
  }

  /** Visiting the head of the queue keeps it sound and covering. */
  lemma VisitCovers(
    dag: Dag, b: Block, horizon: int, visited: set<BlockHash>, queue: seq<Metadata>, curr: Metadata,
    parents: seq<Metadata>)
    requires Sound(dag, b, horizon, [curr] + queue) && Covered(dag, b, horizon, visited, [curr] + queue)
    requires forall m :: m in parents ==> m.hash in curr.justifications && m.hash in dag && dag[m.hash] == m && !m.failed
    requires forall j :: j in curr.justifications && j in dag && !dag[j].failed ==> dag[j] in parents
    ensures var seen := visited + {curr.hash};
            var queue' := Enqueue(queue, NotBelow(parents, horizon), seen);
            Sound(dag, b, horizon, queue') && Covered(dag, b, horizon, seen, queue')
  {
    hide Reaches, Enqueue, NotBelow;
    assert curr in [curr] + queue;
    forall m | m in NotBelow(parents, horizon) ensures Reaches(dag, b, horizon, m.hash) {
      ReachesStep(dag, b, horizon, curr.hash, m.hash);
    }
  }

  /** With the queue empty, the visited set holds everything reachable. */
  lemma CoveredHoldsAll(dag: Dag, b: Block, horizon: int, visited: set<BlockHash>)
    requires Covered(dag, b, horizon, visited, [])
    ensures forall h :: Reaches(dag, b, horizon, h) ==> h in visited
  {
    forall h | Reaches(dag, b, horizon, h) ensures h in visited {
      var path :| IsPath(dag, horizon, path) && IsRoot(dag, b, path[0]) && path[|path| - 1] == h;
      ClosedHoldsPath(dag, b, horizon, visited, path);
    }
  }

  /** `repeat_deploy`: exact on every DAG whose stores hold what the search touches. */
  method RepeatDeploy(dag: Dag, store: BlockStore, b: Block, expiration: int) returns (o: Outcome)
    ensures o.Passed? ==> Present(dag, b)
    ensures o.Passed? ==> forall m :: IsHighest(dag, b, m) ==> NoRepeatAbove(dag, store, b, m + 1 - expiration)
    ensures o.Rejected? ==> o.status == InvalidRepeatDeploy && Present(dag, b)
    ensures o.Rejected? ==> forall m :: IsHighest(dag, b, m) ==>
              exists h :: Reaches(dag, b, m + 1 - expiration, h) && h in store && Shares(b, store[h])
    ensures o.Fault? ==> !Present(dag, b) || forall m :: IsHighest(dag, b, m) ==>
              exists h :: Reaches(dag, b, m + 1 - expiration, h) && !Stored(dag, store, h)
  {
    hide Reaches, IsPath, AnyShared, Shares;
    var keys := set i | 0 <= i < |b.deploys| :: b.deploys[i].key;
    var found, roots := ParentsMetadata(dag, SetOf(b.justifications));
    if !found { return Fault; }
    var highest := HighestNumber(roots);
    var horizon := highest + 1 - expiration;
    HighestUnique(dag, b, roots, highest);
    forall m | m in roots ensures Reaches(dag, b, horizon, m.hash) { ReachesRoot(dag, b, horizon, m.hash); }
    o := Search(dag, store, b, horizon, keys, roots);
    forall h | h in store ensures AnyShared(keys, store[h]) <==> Shares(b, store[h]) { SharedKey(b, store[h], keys); }
  }

  lemma SharedKey(b: Block, c: Block, keys: set<nat>)
    requires keys == set i | 0 <= i < |b.deploys| :: b.deploys[i].key
    ensures AnyShared(keys, c) <==> Shares(b, c)
  {
  }

  lemma HighestUnique(dag: Dag, b: Block, roots: seq<Metadata>, highest: int)
    requires highest >= -1 && forall i :: 0 <= i < |roots| ==> roots[i].number <= highest
    requires highest == -1 || exists i :: 0 <= i < |roots| && roots[i].number == highest
    requires forall m :: m in roots ==> IsRoot(dag, b, m.hash) && dag[m.hash] == m
    requires forall j :: IsRoot(dag, b, j) ==> dag[j] in roots
    ensures forall m :: IsHighest(dag, b, m) ==> m == highest
  {
  }

  // ----- deploy checks

  predicate NoFutureDeploy(b: Block) {
    forall i :: 0 <= i < |b.deploys| ==> b.deploys[i].validAfter <= b.number
  }

  predicate NoExpiredDeploy(b: Block, expiration: int) {
    forall i :: 0 <= i < |b.deploys| ==> b.deploys[i].validAfter > b.number - expiration
  }

  predicate DeploysOnShard(b: Block, shard: string) {
    forall i :: 0 <= i < |b.deploys| ==> b.deploys[i].shard == shard
  }

  predicate DeploysPay(b: Block, minPrice: int) {
    forall i :: 0 <= i < |b.deploys| ==> b.deploys[i].phloPrice >= minPrice
  }

  /** What the four deploy checks ask of one deploy: it may enter the blocks numbered from its own number on, as many as
      the expiration allows. */
  predicate Admits(cfg: Config, number: int, d: Deploy) {
    && d.shard == cfg.shard && d.phloPrice >= cfg.minPrice
    && d.validAfter <= number < d.validAfter + cfg.expiration
  }

  /** The four deploy checks pass exactly when every deploy is admitted. */
  lemma DeploysAdmitted(b: Block, cfg: Config)
    ensures DeploysOnShard(b, cfg.shard) && NoFutureDeploy(b) && NoExpiredDeploy(b, cfg.expiration) && DeploysPay(b, cfg.minPrice)
       <==> forall d :: d in b.deploys ==> Admits(cfg, b.number, d)
  {
    if forall d :: d in b.deploys ==> Admits(cfg, b.number, d) {
      forall i | 0 <= i < |b.deploys| ensures Admits(cfg, b.number, b.deploys[i]) { assert b.deploys[i] in b.deploys; }
    }
  }

  // ----- justification regressions

  type MessageMap = map<BlockHash, Message>

  /** The first justification, in list order, by the block's own sender. */
  function OwnJustification(msgs: MessageMap, js: seq<BlockHash>, sender: Validator): (r: seq<Message>)
    requires forall j :: j in js ==> j in msgs
    ensures |r| <= 1
  {
    if js == [] then []
    else if msgs[js[0]].sender == sender then [msgs[js[0]]]
    else OwnJustification(msgs, js[1..], sender)
  }

  /** The parent of `m` by `sender`, least hash first as the source's ordered set yields them, was seen by `just`. */
  predicate NothingLost(msgs: MessageMap, prev: Message, just: Message) {
    forall p :: p in prev.parents && p in msgs && msgs[p].sender == just.sender
             && (forall q :: q in prev.parents && q in msgs && msgs[q].sender == just.sender ==> p <= q)
             ==> msgs[p].seen <= just.seen
  }

  /** Skipped when a justification has no message, or none is by the sender. */
  predicate NoRegression(msgs: MessageMap, b: Block) {
    (forall j :: j in b.justifications ==> j in msgs) ==>
      var own := OwnJustification(msgs, b.justifications, b.sender);
      own != [] ==> forall j :: j in b.justifications ==> NothingLost(msgs, own[0], msgs[j])
  }

  // ----- the summary

  datatype Config = Config(shard: string, expiration: int, minPrice: int)

  /** What a block that passes `block_summary` satisfies. */
  ghost predicate SummaryHolds(dag: Dag, store: BlockStore, msgs: MessageMap, b: Block, cfg: Config) {
    && NoRegression(msgs, b)
    && Present(dag, b)
    && SequenceFits(dag, b)
    && NumberFits(dag, b)
    && DeploysOnShard(b, cfg.shard)
    && NoFutureDeploy(b)
    && NoExpiredDeploy(b, cfg.expiration)
    && DeploysPay(b, cfg.minPrice)
    && NoRepeatAbove(dag, store, b, b.number - cfg.expiration)
  }

  /** The check named by `status` is the first one, in the source's order, that does not hold. */
  ghost predicate FirstFailure(dag: Dag, msgs: MessageMap, b: Block, cfg: Config, status: Status) {
    && (status.JustificationRegression? <==> !NoRegression(msgs, b))
    && (!status.JustificationRegression? ==> (status.InvalidSequenceNumber? <==> !SequenceFits(dag, b)))
    && (!status.JustificationRegression? && !status.InvalidSequenceNumber? ==>
          && (status.InvalidBlockNumber? <==> !NumberFits(dag, b))
          && (!status.InvalidBlockNumber? ==> FirstDeployFailure(b, cfg, status)))
  }

  predicate FirstDeployFailure(b: Block, cfg: Config, status: Status) {
    if !DeploysOnShard(b, cfg.shard) then status.InvalidDeployShardId?
    else if !NoFutureDeploy(b) then status.ContainsFutureDeploy?
    else if !NoExpiredDeploy(b, cfg.expiration) then status.ContainsExpiredDeploy?
    else if !DeploysPay(b, cfg.minPrice) then status.ContainsLowCostDeploy?
    else status.InvalidRepeatDeploy?
  }

  /** `block_summary`: the checks in the source's order, the first failure deciding. */
  method BlockSummary(dag: Dag, store: BlockStore, msgs: MessageMap, b: Block, cfg: Config) returns (o: Outcome)
    ensures o.Passed? ==> SummaryHolds(dag, store, msgs, b, cfg)
    ensures o.Rejected? ==> !SummaryHolds(dag, store, msgs, b, cfg) && FirstFailure(dag, msgs, b, cfg, o.status)
    ensures o.Fault? ==>
              !Present(dag, b) || exists h :: Reaches(dag, b, b.number - cfg.expiration, h) && !Stored(dag, store, h)
  {
    hide Reaches, NoRegression, NumberFits, SequenceFits, IsHighest, Stored, Shares;
    if !NoRegression(msgs, b) { return Rejected(JustificationRegression); }
    o := SequenceNumber(dag, b);
    if !o.Passed? { return; }
    o := BlockNumber(dag, b);
    if !o.Passed? { return; }
    if !DeploysOnShard(b, cfg.shard) { return Rejected(InvalidDeployShardId); }
    if !NoFutureDeploy(b) { return Rejected(ContainsFutureDeploy); }
    if !NoExpiredDeploy(b, cfg.expiration) { return Rejected(ContainsExpiredDeploy); }
    if !DeploysPay(b, cfg.minPrice) { return Rejected(ContainsLowCostDeploy); }
    HighestIsNumber(dag, b);
    o := RepeatDeploy(dag, store, b, cfg.expiration);
  }

  lemma HighestIsNumber(dag: Dag, b: Block)
    requires NumberFits(dag, b)
    ensures IsHighest(dag, b, b.number - 1)
  {
  }
}
