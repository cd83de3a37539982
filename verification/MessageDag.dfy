/** What the message map says about the DAG: `seen` is the transitive closure of the
    justifications, each sender's messages form one chain, and the numbers of non-failed blocks have no gap. */
module MessageDag {
  import opened Blocks
  import opened Validation
  import opened History

  // ----- seen is ancestry

  /** `path` follows justifications. */
  ghost predicate Cites(dag: Dag, path: seq<BlockHash>) {
    && |path| > 0
    && path[0] in dag
    && (|path| > 1 ==> path[1] in dag[path[0]].justifications && Cites(dag, path[1..]))
  }

  /** `g` is `h` or a transitive justification of it. */
  ghost predicate Above(dag: Dag, h: BlockHash, g: BlockHash) {
    exists path :: Cites(dag, path) && path[0] == h && path[|path| - 1] == g
  }

  /** Messages never change once inserted. */
  lemma MessageKept(log: seq<Entry>, h: BlockHash)
    requires Linked(log) && log != [] && h in Metas(Init(log))
    ensures Messages(log)[h] == Messages(Init(log))[h] && Metas(log)[h] == Metas(Init(log))[h]
  {
  }

  /** A message has seen itself and all its justifications have seen. */
  lemma {:induction false} SeenSteps(log: seq<Entry>, h: BlockHash)
    requires Linked(log) && h in Metas(log)
    ensures h in Messages(log)[h].seen
    ensures Metas(log)[h].justifications <= Metas(log).Keys
    ensures forall j :: j in Metas(log)[h].justifications ==> Messages(log)[j].seen <= Messages(log)[h].seen
  {
    JustificationsStored(log, h);
    if h != Last(log).block.hash {
      SeenSteps(Init(log), h);
    }
  }

  lemma {:induction false} PathSeen(log: seq<Entry>, path: seq<BlockHash>)
    requires Linked(log) && Cites(Metas(log), path)
    ensures path[|path| - 1] in Messages(log)[path[0]].seen
    decreases |path|
  {
    SeenSteps(log, path[0]);
    if |path| > 1 { PathSeen(log, path[1..]); }
  }

  lemma {:induction false} CitesKept(log: seq<Entry>, path: seq<BlockHash>)
    requires Linked(log) && log != [] && Cites(Metas(Init(log)), path)
    ensures Cites(Metas(log), path)
    decreases |path|
  {
    MessageKept(log, path[0]);
    if |path| > 1 { CitesKept(log, path[1..]); }
  }

  /** What a new message has seen beyond itself, one of its justifications has seen. */
  lemma SeenThrough(log: seq<Entry>, g: BlockHash) returns (j: BlockHash)
    requires Linked(log) && log != [] && g in Messages(log)[Last(log).block.hash].seen && g != Last(log).block.hash
    ensures j in Last(log).Meta().justifications && j in Metas(Init(log)) && g in Messages(Init(log))[j].seen
  {
    j :| j in Last(log).Meta().justifications && g in Messages(Init(log))[j].seen;
  }

  lemma {:induction false} SeenPath(log: seq<Entry>, h: BlockHash, g: BlockHash) returns (path: seq<BlockHash>)
    requires Linked(log) && h in Metas(log) && g in Messages(log)[h].seen
    ensures Cites(Metas(log), path) && path[0] == h && path[|path| - 1] == g
    decreases |log|
  {
    hide Messages;
    var init, last := Init(log), Last(log);
    if h != last.block.hash {
      MessageKept(log, h);
      path := SeenPath(init, h, g);
      CitesKept(log, path);
    } else if g == h {
      path := [h];
    } else {
      var j := SeenThrough(log, g);
      var rest := SeenPath(init, j, g);
      CitesKept(log, rest);
      path := [h] + rest;
      assert path[1..] == rest;
    }
  }

  /** `seen` is exactly the message and its transitive justifications. */
  lemma SeenIsAncestry(log: seq<Entry>, h: BlockHash, g: BlockHash)
    requires Linked(log) && h in Metas(log)
    ensures g in Messages(log)[h].seen <==> Above(Metas(log), h, g)
  {
    if g in Messages(log)[h].seen {
      var path := SeenPath(log, h, g);
    }
    if Above(Metas(log), h, g) {
      var path :| Cites(Metas(log), path) && path[0] == h && path[|path| - 1] == g;
      PathSeen(log, path);
    }
  }

  // ----- one chain per sender

  /** Inserts without equivocation in which every block by `s` passed `sequence_number`. */
  ghost predicate SequencedRun(log: seq<Entry>, s: Validator) {
    log != [] ==>
      && SequencedRun(Init(log), s)
      && Linked(log)
      && !Equivocates(Messages(Init(log)), Last(log).Meta())
      && (Last(log).block.sender == s ==> SequenceFits(Metas(Init(log)), Last(log).block))
  }

  /** A valid run is sequenced for every sender none of whose blocks failed. */
  lemma {:induction false} ValidRunSequenced(log: seq<Entry>, cfg: Config, s: Validator)
    requires ValidRun(log, cfg)
    requires forall h :: h in Metas(log) && Metas(log)[h].sender == s ==> !Metas(log)[h].failed
    ensures SequencedRun(log, s)
  {
    if log != [] {
      assert forall h :: h in Metas(Init(log)) ==> h in Metas(log) && Metas(log)[h] == Metas(Init(log))[h];
      assert Metas(log)[Last(log).block.hash] == Last(log).Meta();
      ValidRunSequenced(Init(log), cfg, s);
    }
  }

  /** A sender's sequence number identifies its message. */
  lemma {:induction false} SequenceIdentifies(log: seq<Entry>, s: Validator, g: BlockHash, h: BlockHash)
    requires SequencedRun(log, s) && g in Metas(log) && h in Metas(log)
    requires Metas(log)[g].sender == Metas(log)[h].sender && Metas(log)[g].seqNum == Metas(log)[h].seqNum
    ensures g == h
  {
    var last := Last(log).block.hash;
    if g != last && h != last {
      SequenceIdentifies(Init(log), s, g, h);
    }
  }

  /** A sender's message above the first cites the one just before it in the sequence. */
  lemma {:induction false} CitesPredecessor(log: seq<Entry>, s: Validator, h: BlockHash) returns (j: BlockHash)
    requires SequencedRun(log, s) && Linked(log) && h in Metas(log) && Metas(log)[h].sender == s && Metas(log)[h].seqNum > 0
    ensures j in Metas(log) && j in Metas(log)[h].justifications
    ensures Metas(log)[j].sender == s && Metas(log)[j].seqNum == Metas(log)[h].seqNum - 1
  {
    var init, b := Init(log), Last(log).block;
    if h == b.hash {
      j :| j in b.justifications && j in Metas(init) && Metas(init)[j].sender == s && Metas(init)[j].seqNum == b.seqNum - 1;
    } else {
      j := CitesPredecessor(init, s, h);
      JustificationsStored(init, h);
    }
  }

  /** Of two messages of a sender, the one with the higher sequence number has seen the other and all it saw. */
  lemma {:induction false} OneChain(log: seq<Entry>, s: Validator, g: BlockHash, h: BlockHash)
    requires SequencedRun(log, s) && Linked(log) && g in Metas(log) && h in Metas(log)
    requires Metas(log)[g].sender == Metas(log)[h].sender == s && Metas(log)[g].seqNum < Metas(log)[h].seqNum
    ensures Above(Metas(log), h, g)
    ensures g in Messages(log)[h].seen && Messages(log)[g].seen <= Messages(log)[h].seen
    decreases Metas(log)[h].seqNum
  {
    var j := CitesPredecessor(log, s, h);
    SeenSteps(log, h);
    if Metas(log)[g].seqNum == Metas(log)[j].seqNum {
      SequenceIdentifies(log, s, g, j);
      SeenSteps(log, g);
    } else {
      OneChain(log, s, g, j);
    }
    SeenIsAncestry(log, h, g);
  }

  // ----- the numbers of non-failed blocks have no gap

  /** Below every non-failed block there is a non-failed block of each smaller number. */
  lemma {:induction false} NumbersContiguous(log: seq<Entry>, cfg: Config, h: BlockHash, n: nat) returns (g: BlockHash)
    requires ValidRun(log, cfg) && h in Metas(log) && !Metas(log)[h].failed && n <= Metas(log)[h].number
    ensures g in Metas(log) && !Metas(log)[g].failed && Metas(log)[g].number == n
    decreases |log|, Metas(log)[h].number
  {
    hide ValidRun, Linked, Messages, Store, SummaryHolds;
    var init, b := Init(log), Last(log).block;
    ValidBefore(log, cfg);
    if h != b.hash {
      g := NumbersContiguous(init, cfg, h, n);
    } else if n == b.number {
      g := h;
    } else {
      LastPassed(log, cfg);
      RunLinked(init, cfg);
      var j := NumberBelow(Metas(init), Store(init), Messages(init), b, cfg);
      g := NumbersContiguous(init, cfg, j, n);
    }
  }

  lemma NumberBelow(dag: Dag, store: BlockStore, msgs: MessageMap, b: Block, cfg: Config) returns (j: BlockHash)
    requires SummaryHolds(dag, store, msgs, b, cfg) && b.number > 0
    ensures j in dag && !dag[j].failed && dag[j].number == b.number - 1
  {
    hide SequenceFits, NoRegression, NoRepeatAbove;
    j :| IsRoot(dag, b, j) && dag[j].number == b.number - 1;
  }

  lemma ValidBefore(log: seq<Entry>, cfg: Config)
    requires ValidRun(log, cfg) && log != []
    ensures ValidRun(Init(log), cfg) && Linked(log) && Last(log).block.hash !in Metas(Init(log))
  {
    hide SummaryHolds;
  }

  /** The stores of a run hold all that validation of a further block looks up. */
  lemma StoresComplete(log: seq<Entry>, h: BlockHash)
    requires Linked(log) && h in Metas(log)
    ensures Stored(Metas(log), Store(log), h)
  {
    JustificationsStored(log, h);
  }
}
