/** The growing DAG as a log of inserted blocks. The metadata store, the block store and
    the message map of `casper/src/dag.rs` are functions of the log. */
module History {
  import opened Blocks
  import opened Validation

  /** An inserted block and whether its validation failed. */
  datatype Entry = Entry(block: Block, failed: bool) {
    function Meta(): Metadata { MetadataOf(block, failed) }
  }

  function Init(log: seq<Entry>): seq<Entry>
    requires log != []
  {
    log[..|log| - 1]
  }

  function Last(log: seq<Entry>): Entry
    requires log != []
  {
    log[|log| - 1]
  }

  function Metas(log: seq<Entry>): Dag {
    if log == [] then map[] else Metas(Init(log))[Last(log).block.hash := Last(log).Meta()]
  }

  function Store(log: seq<Entry>): (r: BlockStore)
    ensures r.Keys == Metas(log).Keys
    ensures forall h :: h in r ==> r[h].hash == h && Metas(log)[h] == MetadataOf(r[h], Metas(log)[h].failed)
  {
    if log == [] then map[] else Store(Init(log))[Last(log).block.hash := Last(log).block]
  }

  /** What the listed messages have seen, together. */
  function SeenBy(js: set<BlockHash>, msgs: MessageMap): set<BlockHash>
    requires js <= msgs.Keys
  {
    set j, h | j in js && h in msgs[j].seen :: h
  }

  /** `message_from_block_metadata`, when every justification has a message. */
  function MessageOf(m: Metadata, msgs: MessageMap): Message
    requires m.justifications <= msgs.Keys
  {
    Message(m.hash, m.number, m.sender, m.seqNum, m.justifications, SeenBy(m.justifications, msgs) + {m.hash})
  }

  /** Every block is new and cites only blocks inserted before it. */
  ghost predicate Linked(log: seq<Entry>) {
    log != [] ==>
      && Linked(Init(log))
      && Last(log).block.hash !in Metas(Init(log))
      && Last(log).Meta().justifications <= Metas(Init(log)).Keys
  }

  ghost function Messages(log: seq<Entry>): (r: MessageMap)
    requires Linked(log)
    ensures r.Keys == Metas(log).Keys
    ensures forall h :: h in r ==> r[h].id == h && r[h].parents == Metas(log)[h].justifications
    ensures forall h :: h in r ==> r[h].sender == Metas(log)[h].sender && r[h].senderSeq == Metas(log)[h].seqNum
    ensures forall h :: h in r ==> r[h].height == Metas(log)[h].number
  {
    if log == [] then map[]
    else Messages(Init(log))[Last(log).block.hash := MessageOf(Last(log).Meta(), Messages(Init(log)))]
  }

  /** Some stored message already has this sender and sequence number. */
  predicate Equivocates(msgs: MessageMap, m: Metadata) {
    exists h :: h in msgs && msgs[h].sender == m.sender && msgs[h].senderSeq == m.seqNum
  }

  /** Inserts that went through: linked, no equivocation, and every non-failed block passed its summary and
      neglected no failed block. */
  ghost predicate ValidRun(log: seq<Entry>, cfg: Config) {
    log != [] ==>
      && ValidRun(Init(log), cfg)
      && Linked(log)
      && !Equivocates(Messages(Init(log)), Last(log).Meta())
      && (!Last(log).failed ==>
            && SummaryHolds(Metas(Init(log)), Store(Init(log)), Messages(Init(log)), Last(log).block, cfg)
            && NeglectsNone(Metas(Init(log)), Last(log).block))
  }

  lemma RunLinked(log: seq<Entry>, cfg: Config)
    requires ValidRun(log, cfg)
    ensures Linked(log)
  {
  }

  lemma LastPassed(log: seq<Entry>, cfg: Config)
    requires log != [] && ValidRun(log, cfg) && !Last(log).failed
    ensures ValidRun(Init(log), cfg) && Linked(log)
    ensures SummaryHolds(Metas(Init(log)), Store(Init(log)), Messages(Init(log)), Last(log).block, cfg)
    ensures NeglectsNone(Metas(Init(log)), Last(log).block)
  {
    hide SummaryHolds, NeglectsNone;
  }

  /** Every justification of a stored block is stored. */
  lemma {:induction false} JustificationsStored(log: seq<Entry>, h: BlockHash)
    requires Linked(log) && h in Metas(log)
    ensures Metas(log)[h].justifications <= Metas(log).Keys
  {
    if h != Last(log).block.hash { JustificationsStored(Init(log), h); }
  }
}
