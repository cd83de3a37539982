/** The block DAG storage (`casper/src/dag.rs`, `block-storage/src/dag/message_state.rs`,
    `block-storage/src/dag/metadata_store.rs`): inserting a block, and rebuilding the
    message state from the stores on restart. */
module DagStorage {
  import opened Blocks
  import opened Validation
  import opened History

  datatype MessageState = MessageState(latest: map<Validator, Message>, msgs: MessageMap) {

    /** Only a higher sequence number replaces the sender's latest message. */
    function InsertMsg(m: Message): MessageState {
      if m.id in msgs then this
      else
        MessageState(
          if m.sender in latest && m.senderSeq <= latest[m.sender].senderSeq then latest else latest[m.sender := m],
          msgs[m.id := m])
    }

    function InsertMsgWithoutLatest(m: Message): MessageState {
      if m.id in msgs then this else MessageState(latest, msgs[m.id := m])
    }
  }

  const EmptyState := MessageState(map[], map[])

  type Heights = map<nat, set<BlockHash>>

  /** `add_block_to_dag_state` on the height map: failed blocks are left out. */
  function AddHeight(heights: Heights, m: Metadata): Heights {
    if m.failed then heights
    else heights[m.number := (if m.number in heights then heights[m.number] else {}) + {m.hash}]
  }

  /** `heights` lists exactly the non-failed blocks of `dag`, each under its number. */
  ghost predicate IsHeightMap(heights: Heights, dag: Dag) {
    && (forall n :: n in heights ==> heights[n] != {})
    && (forall n, h :: n in heights && h in heights[n] ==> h in dag && !dag[h].failed && dag[h].number == n)
    && (forall h :: h in dag && !dag[h].failed ==> dag[h].number in heights && h in heights[dag[h].number])
  }

  /** `latest` holds, for every sender of a message in `promoted`, the one with the highest sequence number. */
  ghost predicate IsLatest(latest: map<Validator, Message>, msgs: MessageMap, promoted: set<BlockHash>) {
    && promoted <= msgs.Keys
    && (forall s :: s in latest ==>
          latest[s].id in promoted && msgs[latest[s].id] == latest[s] && latest[s].sender == s)
    && (forall h :: h in promoted ==>
          msgs[h].sender in latest && msgs[h].senderSeq <= latest[msgs[h].sender].senderSeq)
  }

  function NonFailed(dag: Dag): set<BlockHash> {
    set h | h in dag && !dag[h].failed
  }

  // ----- message_from_block_metadata

  /** Gather what the justifications have seen; nothing when one has no message. */
  method MessageFrom(m: Metadata, msgs: MessageMap) returns (found: bool, r: Message)
    ensures found <==> m.justifications <= msgs.Keys
    ensures found ==> r == MessageOf(m, msgs)
  {
    var seen, todo := {}, m.justifications;
    r := Message(m.hash, m.number, m.sender, m.seqNum, m.justifications, {});
    while todo != {}
      invariant todo <= m.justifications && m.justifications - todo <= msgs.Keys
      invariant seen == SeenBy(m.justifications - todo, msgs)
      decreases todo
    {
      var p :| p in todo;
      if p !in msgs { return false, r; }
      assert m.justifications - (todo - {p}) == m.justifications - todo + {p};
      seen := seen + msgs[p].seen;
      todo := todo - {p};
    }
    assert m.justifications - {} == m.justifications;
    found, r := true, r.(seen := seen + {m.hash});
  }

  // ----- the storage

  class Storage {
    var metadata: Dag
    var heights: Heights
    var state: MessageState

    /** The inserts that went through, in order. */
    ghost var log: seq<Entry>

    /** The fields are what the log makes of them; inserts that failed late may have left extra metadata. */
    ghost predicate Valid()
      reads this
    {
      && Linked(log)
      && Distinct(state.msgs)
      && (forall h :: h in Metas(log) ==> h in metadata && metadata[h] == Metas(log)[h])
      && IsHeightMap(heights, metadata)
      && state.msgs == Messages(log)
      && IsLatest(state.latest, state.msgs, NonFailed(Metas(log)))
    }

    constructor ()
      ensures Valid() && log == [] && metadata == map[]
    {
      metadata, heights, state, log := map[], map[], EmptyState, [];
    }

    /** `insert`: a known hash is ignored, an equivocation is refused before any write, and a
        missing justification is noticed only after the metadata has been written. */
    method Insert(e: Entry) returns (ok: bool)
      requires Valid()
      modifies this
      ensures Valid()
      ensures old(e.block.hash in metadata) ==> ok && unchanged(this)
      ensures old(e.block.hash !in metadata && Equivocates(state.msgs, e.Meta())) ==> !ok && unchanged(this)
      ensures old(e.block.hash !in metadata && !Equivocates(state.msgs, e.Meta())) ==>
                metadata == old(metadata)[e.block.hash := e.Meta()] && heights == AddHeight(old(heights), e.Meta())
      ensures old(e.block.hash !in metadata && !Equivocates(state.msgs, e.Meta())) ==>
                (ok <==> e.Meta().justifications <= old(state.msgs).Keys)
      ensures log == if ok && old(e.block.hash !in metadata) then old(log) + [e] else old(log)
    {
      var m := e.Meta();
      if m.hash in metadata { return true; }
      if Equivocates(state.msgs, m) { return false; }
      HeightAdded(heights, metadata, m);
      metadata, heights := metadata[m.hash := m], AddHeight(heights, m);
      var found, msg := MessageFrom(m, state.msgs);
      if !found { return false; }
      InsertKeeps(log, e, state);
      state := if m.failed then state.InsertMsgWithoutLatest(msg) else state.InsertMsg(msg);
      log := log + [e];
      ok := true;
    }
  }

  /** No two messages share a sender and a sequence number. */
  ghost predicate Distinct(msgs: MessageMap) {
    forall g, h :: g in msgs && h in msgs && g != h ==>
      msgs[g].sender != msgs[h].sender || msgs[g].senderSeq != msgs[h].senderSeq
  }

  lemma HeightAdded(heights: Heights, dag: Dag, m: Metadata)
    requires IsHeightMap(heights, dag) && m.hash !in dag
    ensures IsHeightMap(AddHeight(heights, m), dag[m.hash := m])
  {
  }

  /** One more insert extends the metadata and the messages by one entry. */
  lemma LogExtended(log: seq<Entry>, e: Entry)
    requires Linked(log) && e.block.hash !in Metas(log) && e.Meta().justifications <= Metas(log).Keys
    ensures Linked(log + [e])
    ensures Metas(log + [e]) == Metas(log)[e.block.hash := e.Meta()]
    ensures Messages(log + [e]) == Messages(log)[e.block.hash := MessageOf(e.Meta(), Messages(log))]
    ensures NonFailed(Metas(log + [e])) == NonFailed(Metas(log)) + (if e.failed then {} else {e.block.hash})
  {
    hide SeenBy, SetOf;
    assert Init(log + [e]) == log && Last(log + [e]) == e;
  }

  lemma DistinctInserted(msgs: MessageMap, msg: Message)
    requires Distinct(msgs) && msg.id !in msgs
    requires forall h :: h in msgs ==> msgs[h].sender != msg.sender || msgs[h].senderSeq != msg.senderSeq
    ensures Distinct(msgs[msg.id := msg])
  {
  }

  /** Inserting a message keeps the latest messages right, whether it is promoted or not. */
  lemma LatestInserted(st: MessageState, promoted: set<BlockHash>, msg: Message)
    requires IsLatest(st.latest, st.msgs, promoted) && msg.id !in st.msgs
    ensures IsLatest(st.InsertMsg(msg).latest, st.msgs[msg.id := msg], promoted + {msg.id})
    ensures IsLatest(st.latest, st.msgs[msg.id := msg], promoted)
  {
    var msgs, latest, all := st.msgs[msg.id := msg], st.InsertMsg(msg).latest, promoted + {msg.id};
    forall h | h in all ensures msgs[h].sender in latest && msgs[h].senderSeq <= latest[msgs[h].sender].senderSeq {
      if h != msg.id { assert h in promoted; }
    }
    forall s | s in latest
      ensures latest[s].id in all && msgs[latest[s].id] == latest[s] && latest[s].sender == s
    {
      if latest[s] != msg { assert latest[s] == st.latest[s]; }
    }
  }

  /** A message becomes its sender's latest exactly when its sequence number is higher than any before. */
  lemma LatestChangesIff(st: MessageState, promoted: set<BlockHash>, msg: Message)
    requires IsLatest(st.latest, st.msgs, promoted) && msg.id !in st.msgs
    ensures st.InsertMsg(msg).latest == (if HighestSoFar(st, promoted, msg) then st.latest[msg.sender := msg] else st.latest)
    ensures HighestSoFar(st, promoted, msg) <==> st.InsertMsg(msg).latest != st.latest
  {
    if msg.sender in st.latest {
      assert st.latest[msg.sender].id in promoted;
      assert st.latest[msg.sender] != msg;
    }
  }

  ghost predicate HighestSoFar(st: MessageState, promoted: set<BlockHash>, msg: Message)
    requires promoted <= st.msgs.Keys
  {
    forall h :: h in promoted && st.msgs[h].sender == msg.sender ==> st.msgs[h].senderSeq < msg.senderSeq
  }

  lemma InsertKeeps(log: seq<Entry>, e: Entry, st: MessageState)
    requires Linked(log) && e.block.hash !in Metas(log) && e.Meta().justifications <= st.msgs.Keys
    requires st.msgs == Messages(log) && Distinct(st.msgs) && !Equivocates(st.msgs, e.Meta())
    requires IsLatest(st.latest, st.msgs, NonFailed(Metas(log)))
    ensures Linked(log + [e]) && Metas(log + [e]) == Metas(log)[e.block.hash := e.Meta()]
    ensures var msg := MessageOf(e.Meta(), st.msgs);
            var after := if e.failed then st.InsertMsgWithoutLatest(msg) else st.InsertMsg(msg);
            && after.msgs == Messages(log + [e])
            && Distinct(after.msgs)
            && IsLatest(after.latest, after.msgs, NonFailed(Metas(log + [e])))
  {
    hide Linked, Metas, Messages, IsLatest, Distinct, SeenBy;
    var msg := MessageOf(e.Meta(), st.msgs);
    LogExtended(log, e);
    DistinctInserted(st.msgs, msg);
    LatestInserted(st, NonFailed(Metas(log)), msg);
    assert NonFailed(Metas(log)) + {} == NonFailed(Metas(log));
  }
}
