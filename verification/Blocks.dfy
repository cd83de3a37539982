/** Blocks and their metadata as the validators see them
    (`models/src/casper/protocol`, `models/src/block_metadata.rs`). Hashes, validators and
    normalised deploy signatures are opaque identities. Block numbers and
    sequence numbers are the source's non-negative refined integers. */
module Blocks {

  type BlockHash = nat

  type Validator = nat

  /** `key` is the signature in low-S form. */
  datatype Deploy = Deploy(key: nat, validAfter: int, shard: string, phloPrice: int)

  datatype Block = Block(
    hash: BlockHash, number: nat, sender: Validator, seqNum: nat, justifications: seq<BlockHash>, deploys: seq<Deploy>,
    bonds: map<Validator, nat>)

  datatype Metadata = Metadata(
    hash: BlockHash, number: nat, sender: Validator, seqNum: nat, justifications: set<BlockHash>, failed: bool)

  /** The metadata store: every entry sits under its own hash. */
  type Dag = d: map<BlockHash, Metadata> | forall h :: h in d ==> d[h].hash == h witness map[]

  type BlockStore = map<BlockHash, Block>

  function SetOf(hs: seq<BlockHash>): set<BlockHash> {
    set h | h in hs
  }

  /** `BlockMetadata::from_block`, with the verdict of validation. */
  function MetadataOf(b: Block, failed: bool): Metadata {
    Metadata(b.hash, b.number, b.sender, b.seqNum, SetOf(b.justifications), failed)
  }

  /** A message of the DAG: `seen` holds the message itself and what its parents have seen. */
  datatype Message = Message(id: BlockHash, height: nat, sender: Validator, senderSeq: nat, parents: set<BlockHash>,
                             seen: set<BlockHash>)

  datatype Status =
    | JustificationRegression
    | InvalidSequenceNumber
    | InvalidBlockNumber
    | InvalidDeployShardId
    | ContainsFutureDeploy
    | ContainsExpiredDeploy
    | ContainsLowCostDeploy
    | InvalidRepeatDeploy
    | NeglectedInvalidBlock

  /** A check's outcome; `Fault` is an error of the stores, not a verdict on the block. */
  datatype Outcome = Passed | Rejected(status: Status) | Fault
}
