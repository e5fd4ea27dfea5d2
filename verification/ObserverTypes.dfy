/** Headers, ideal hashes and signatures, and the messages that observers exchange.

    Hashing is the injective constructor `HashOf`.  A signature is a record of who signed
    what; `nonce` tells apart several valid signatures of one signer over one payload
    (ECDSA allows that). */
module ObserverTypes {
  import opened Options

  type Key = nat      // a public hash; comparing the bytes is comparing the big-endian number
  type Address = nat

  datatype Hash = GenesisHash | HashOf(header: Header)

  /** `timeoutCount` is the decoded consensus data (None: it does not decode);
      `contents` stands for the level root and the context hash. */
  datatype Header = Header(
    chainID: nat, version: nat, height: nat, prevHash: Hash, timestamp: nat,
    generator: Address, timeoutCount: Option<nat>, contents: nat)

  /** `sigs` holds the generator's signature first and the observers' after it. */
  datatype Block = Block(header: Header, body: nat, sigs: seq<Signature>)

  datatype Payload =
    | OfHeader(header: Header)
    | OfBlockSign(header: Header, genSig: Signature)
    | OfRoundVote(roundVote: RoundVote)
    | OfAck(ack: Ack)
    | OfBlockVote(blockVote: BlockVote)

  datatype Signature = Signature(signer: Key, payload: Payload, nonce: nat)

  datatype RoundVote = RoundVote(
    chainID: nat, lastHash: Hash, target: nat, timeout: nat,
    formulator: Address, formulatorKey: Key, timestamp: nat, isReply: bool)

  /** `chosen` is the observer whose round vote the sender selected. */
  datatype Ack = Ack(
    chainID: nat, lastHash: Hash, target: nat, timeout: nat,
    formulator: Address, formulatorKey: Key, chosen: Key, timestamp: nat, isReply: bool)

  datatype BlockGen = BlockGen(block: Block, genSig: Signature)

  datatype BlockVote = BlockVote(
    target: nat, header: Header, genSig: Signature, obSig: Signature, isReply: bool)

  datatype Message =
    | RoundVoteMessage(vote: RoundVote, sig: Signature)
    | AckMessage(ack: Ack, sig: Signature)
    | SetupMessage(minAck: Ack, sig: Signature)
    | BlockGenMessage(gen: BlockGen)
    | BlockVoteMessage(blockVote: BlockVote, sig: Signature)
    | BlockMessage(block: Block)

  datatype Rank = Rank(address: Address, publicHash: Key)

  /** What the observers share: their keys, and the parts of the chain the protocol consults.
      `ranks` is the candidate list after a chain of blocks, `blocksBySame` the number of blocks
      the current formulator already made, `executes` whether a block runs to its context hash,
      `connects` whether the pre-executed block can be saved. */
  datatype Config = Config(
    keys: set<Key>, maxBlocks: nat, chainID: nat, version: nat,
    ranks: seq<Block> -> seq<Rank>, blocksBySame: seq<Block> -> nat,
    executes: (seq<Block>, Block) -> bool, connects: (seq<Block>, Block) -> bool)

  function Majority(cfg: Config): nat { |cfg.keys| / 2 + 1 }

  function RecoverPubkey(payload: Payload, sig: Signature): Option<Key> {
    if sig.payload == payload then Some(sig.signer) else None
  }

  function LastHash(chain: seq<Block>): Hash {
    if chain == [] then GenesisHash else HashOf(chain[|chain| - 1].header)
  }

  function LastTimestamp(chain: seq<Block>): nat {
    if chain == [] then 0 else chain[|chain| - 1].header.timestamp
  }

  function TopRank(cfg: Config, chain: seq<Block>, timeout: nat): Option<Rank> {
    if timeout < |cfg.ranks(chain)| then Some(cfg.ranks(chain)[timeout]) else None
  }

  predicate ValidHeader(cfg: Config, chain: seq<Block>, bh: Header) {
    && bh.chainID == cfg.chainID
    && bh.version <= cfg.version
    && bh.prevHash == LastHash(chain)
    && bh.timestamp > LastTimestamp(chain)
    && bh.generator != 0
    && bh.height == |chain| + 1
    && (if bh.height == 1 then bh.version > 0
        else chain != [] && bh.version >= chain[|chain| - 1].header.version
             && bh.chainID == chain[|chain| - 1].header.chainID)
  }
}
