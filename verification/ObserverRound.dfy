/** One observer: its voting round and what each event does to it. */
module ObserverRound {
  import opened Options
  import opened ObserverTypes

  datatype RoundState = RoundVoting | AckVoting | BlockWaiting | BlockVoting

  datatype BlockRound = BlockRound(
    votes: map<Key, BlockVote>, gen: Option<BlockGen>,
    voteWait: map<Key, Message>, genWait: Option<BlockGen>)

  datatype Round = Round(
    state: RoundState, target: nat,
    roundVotes: map<Key, RoundVote>, minVote: Key,
    acks: map<Key, Ack>, minAck: Option<Ack>, ackWait: map<Key, Message>,
    blocks: map<nat, BlockRound>, failCount: nat)

  datatype Observer = Observer(me: Key, chain: seq<Block>, round: Round, blockQ: map<nat, Block>)

  /** What an event leaves on the queues and on the mesh.  `Requeue` puts a waiting message back
      on the observer's own queue; `Status` is an unsigned status message. */
  datatype Output =
    | Broadcast(msg: Message)
    | To(key: Key, msg: Message)
    | Requeue(from: Key, msg: Message)
    | Status(key: Key)

  datatype Code =
    | Ok | BadSignature | InvalidPublicHash | InvalidObserverKey | InvalidVote | InvalidRoundState
    | AlreadyVoted | InsufficientCandidates | BadConsensusData | InvalidTopSignature
    | ForkedBlockGen | BadHeader | BadExecution | NotConnected | ForkedBlock | Panic

  datatype Step = Step(ob: Observer, outs: set<Output>, code: Code)

  /** What an event takes from outside: the clock, the connected formulators that are not ignored,
      the ignored ones, and the order in which the event walks the acknowledgement or vote map. */
  datatype Env = Env(now: nat, formulators: set<Address>, ignored: set<Address>, order: seq<Key>)

  const TEN_SECONDS := 10_000_000_000
  const UINT32 := 0x1_0000_0000
  const MAX_VOTE_FAIL := 20

  // ---- rounds ----

  function NewBlockRoundAt(h: nat): BlockRound { BlockRound(map[], None, map[], None) }

  function NewVoteRound(target: nat, maxBlocks: nat): Round {
    Round(RoundVoting, target, map[], 0, map[], None, map[],
          map h: nat {:trigger NewBlockRoundAt(h)} | target <= h < target + maxBlocks :: NewBlockRoundAt(h), 0)
  }

  function ResetRound(cfg: Config, ob: Observer): Observer {
    ob.(round := NewVoteRound(|ob.chain| + 1, cfg.maxBlocks))
  }

  function WithBlock(ob: Observer, h: nat, br: BlockRound): Observer {
    ob.(round := ob.round.(blocks := ob.round.blocks[h := br]))
  }

  /** The same formulator goes on, and the height it goes on with is still prepared. */
  predicate GoesOn(cfg: Config, ob: Observer, h: nat) {
    && h in ob.round.blocks
    && ob.round.minAck.Some? && TopRank(cfg, ob.chain, 0).Some?
    && TopRank(cfg, ob.chain, 0).value.address == ob.round.minAck.value.formulator
  }

  predicate HoldsWaiting(blocks: map<nat, BlockRound>, h: nat) {
    h in blocks && blocks[h].genWait.Some? && blocks[h].gen.None?
  }

  function ForgetWaiting(blocks: map<nat, BlockRound>, h: nat): map<nat, BlockRound> {
    if HoldsWaiting(blocks, h) then blocks[h := blocks[h].(genWait := None)] else blocks
  }

  function QueueWaiting(blocks: map<nat, BlockRound>, h: nat): set<Output> {
    if HoldsWaiting(blocks, h) then {Requeue(0, BlockGenMessage(blocks[h].genWait.value))} else {}
  }

  /** Moves a round that the chain has overtaken: to the next height when the same formulator goes
      on, and to a new round otherwise. */
  function Synced(cfg: Config, ob: Observer): Observer {
    var h := |ob.chain| + 1;
    if GoesOn(cfg, ob, h) then
      ob.(round := ob.round.(target := h, state := BlockWaiting, blocks := ForgetWaiting(ob.round.blocks, h)))
    else ResetRound(cfg, ob)
  }

  function Sync(cfg: Config, ob: Observer): Step {
    var h := |ob.chain| + 1;
    if ob.round.target >= h then Step(ob, {}, Ok)
    else if TopRank(cfg, ob.chain, 0).None? then Step(ob, {}, Panic)
    else Step(Synced(cfg, ob), if GoesOn(cfg, ob, h) then QueueWaiting(ob.round.blocks, h) else {}, Ok)
  }

  // ---- what is signed and sent ----

  function Sign(me: Key, payload: Payload): Signature { Signature(me, payload, 0) }

  function SignedVote(me: Key, gen: BlockGen, isReply: bool): Message {
    var h := gen.block.header;
    var vote := BlockVote(h.height, h, gen.genSig, Sign(me, OfBlockSign(h, gen.genSig)), isReply);
    BlockVoteMessage(vote, Sign(me, OfBlockVote(vote)))
  }

  function BlockVoteTo(ob: Observer, br: BlockRound, to: Key): set<Output> {
    if to == ob.me || br.gen.None? then {} else {To(to, SignedVote(ob.me, br.gen.value, true))}
  }

  /** Repeats the vote for a height to one observer, when there is one to repeat. */
  function VoteAgainTo(ob: Observer, h: nat, to: Key): set<Output> {
    if ob.round.state == BlockVoting && h in ob.round.blocks then BlockVoteTo(ob, ob.round.blocks[h], to) else {}
  }

  function FirstIn(ranks: seq<Rank>, formulators: set<Address>, from: nat): (i: nat)
    requires from <= |ranks|
    ensures from <= i <= |ranks|
    ensures forall j :: from <= j < i ==> ranks[j].address !in formulators
    ensures i < |ranks| ==> ranks[i].address in formulators
    decreases |ranks| - from
  {
    if from == |ranks| || ranks[from].address in formulators then from
    else FirstIn(ranks, formulators, from + 1)
  }

  /** The best ranked formulator among the connected ones, with its position. */
  function TopRankInMap(cfg: Config, chain: seq<Block>, formulators: set<Address>): Option<(Rank, nat)> {
    var i := FirstIn(cfg.ranks(chain), formulators, 0);
    if formulators == {} || i == |cfg.ranks(chain)| then None else Some((cfg.ranks(chain)[i], i))
  }

  function RoundVoteFor(cfg: Config, env: Env, ob: Observer, top: (Rank, nat), isReply: bool): Message {
    var v := RoundVote(cfg.chainID, LastHash(ob.chain), |ob.chain| + 1, top.1, top.0.address, top.0.publicHash,
      env.now, isReply);
    RoundVoteMessage(v, Sign(ob.me, OfRoundVote(v)))
  }

  function RoundVoteTo(cfg: Config, env: Env, ob: Observer, to: Key): set<Output> {
    if to == ob.me then {}
    else if ob.round.state == BlockVoting then
      if ob.me !in ob.round.roundVotes then {} else
      var mine := ob.round.roundVotes[ob.me].(isReply := true);
      var v := if mine.target != |ob.chain| + 1
               then mine.(timeout := 0, target := |ob.chain| + 1, lastHash := LastHash(ob.chain), timestamp := env.now)
               else mine;
      {To(to, RoundVoteMessage(v, Sign(ob.me, OfRoundVote(v))))}
    else match TopRankInMap(cfg, ob.chain, env.formulators)
      case None => {}
      case Some(top) => {To(to, RoundVoteFor(cfg, env, ob, top, true))}
  }

  function AckFor(env: Env, ob: Observer, v: RoundVote, chosen: Key): Message {
    var a := Ack(v.chainID, v.lastHash, v.target, v.timeout, v.formulator, v.formulatorKey, chosen, env.now, false);
    AckMessage(a, Sign(ob.me, OfAck(a)))
  }

  function AckTo(env: Env, ob: Observer, to: Key): set<Output> {
    if to == ob.me || ob.me !in ob.round.acks then {} else
    var mine := ob.round.acks[ob.me].(isReply := true);
    var a := if ob.round.state == BlockVoting && mine.target != |ob.chain| + 1
             then mine.(timeout := 0, target := |ob.chain| + 1, lastHash := LastHash(ob.chain), timestamp := env.now)
             else mine;
    {To(to, AckMessage(a, Sign(ob.me, OfAck(a))))}
  }

  // ---- checks ----

  function Authentic(cfg: Config, from: Key, payload: Payload, sig: Signature): Code {
    match RecoverPubkey(payload, sig)
    case None => BadSignature
    case Some(k) =>
      if k != from then InvalidPublicHash else if k !in cfg.keys then InvalidObserverKey else Ok
  }

  function CheckRound(cfg: Config, chain: seq<Block>, chainID: nat, lastHash: Hash,
                            timeout: nat, formulator: Address, formulatorKey: Key): Code {
    if chainID != cfg.chainID || lastHash != LastHash(chain) then InvalidVote
    else match TopRank(cfg, chain, timeout)
      case None => InsufficientCandidates
      case Some(top) =>
        if formulator != top.address || formulatorKey != top.publicHash then InvalidVote else Ok
  }

  function Behind(ob: Observer, target: nat, isReply: bool, from: Key): set<Output> {
    if target < ob.round.target && !isReply && from != ob.me then {Status(from)} else {}
  }

  // ---- round votes ----

  ghost predicate VoteLess(votes: map<Key, RoundVote>, a: Key, b: Key)
    requires a in votes && b in votes
  {
    votes[a].timeout < votes[b].timeout || (votes[a].timeout == votes[b].timeout && a < b)
  }

  ghost predicate IsMinVote(votes: map<Key, RoundVote>, k: Key) {
    k in votes && forall j :: j in votes && j != k ==> VoteLess(votes, k, j)
  }

  ghost function MinVote(votes: map<Key, RoundVote>): Key {
    if exists k: Key :: IsMinVote(votes, k) then var k: Key :| IsMinVote(votes, k); k else 0
  }

  function RoundVoteCode(cfg: Config, ob: Observer, from: Key, v: RoundVote, sig: Signature): Code {
    var auth := Authentic(cfg, from, OfRoundVote(v), sig);
    var check := CheckRound(cfg, ob.chain, v.chainID, v.lastHash, v.timeout, v.formulator, v.formulatorKey);
    if auth != Ok then auth
    else if v.target != ob.round.target then InvalidVote
    else if check != Ok then check
    else if ob.round.state != RoundVoting then InvalidRoundState
    else if from in ob.round.roundVotes && v.timestamp <= ob.round.roundVotes[from].timestamp then AlreadyVoted
    else Ok
  }

  function WithRoundVote(ob: Observer, from: Key, v: RoundVote): Observer {
    ob.(round := ob.round.(roundVotes := ob.round.roundVotes[from := v]))
  }

  ghost function AfterRoundVote(cfg: Config, ob: Observer, from: Key, v: RoundVote): Observer {
    var voted := WithRoundVote(ob, from, v);
    if |voted.round.roundVotes| < |cfg.keys| / 2 + 2 then voted else CloseRoundVote(voted)
  }

  ghost function CloseRoundVote(ob: Observer): Observer {
    ob.(round := ob.round.(state := AckVoting, minVote := MinVote(ob.round.roundVotes)))
  }

  ghost function RoundVoteOuts(cfg: Config, env: Env, ob: Observer, from: Key, v: RoundVote, code: Code): set<Output> {
    var answer := !v.isReply && from != ob.me;
    match code
    case InvalidVote => Behind(ob, v.target, v.isReply, from)
    case InvalidRoundState =>
      if answer then VoteAgainTo(ob, v.target, from) + RoundVoteTo(cfg, env, ob, from) else {}
    case AlreadyVoted => if answer then RoundVoteTo(cfg, env, ob, from) else {}
    case Ok =>
      var voted := WithRoundVote(ob, from, v);
      (if answer then RoundVoteTo(cfg, env, voted, from) else {})
      + (if |voted.round.roundVotes| < |cfg.keys| / 2 + 2 then {} else RoundVoteCloses(env, CloseRoundVote(voted)))
    case _ => {}
  }

  /** The acknowledgement of the least vote, and the acknowledgements that came early. */
  function RoundVoteCloses(env: Env, ob: Observer): set<Output> {
    if ob.round.minVote !in ob.round.roundVotes then {} else
    {Broadcast(AckFor(env, ob, ob.round.roundVotes[ob.round.minVote], ob.round.minVote))}
    + (set j | j in ob.round.ackWait :: Requeue(j, ob.round.ackWait[j]))
  }

  ghost function HandleRoundVote(cfg: Config, env: Env, ob: Observer, from: Key, v: RoundVote, sig: Signature): Step {
    var code := RoundVoteCode(cfg, ob, from, v, sig);
    Step(if code == Ok then AfterRoundVote(cfg, ob, from, v) else ob,
         RoundVoteOuts(cfg, env, ob, from, v, code), code)
  }

  // ---- acknowledgements ----

  function TimeoutBackers(acks: map<Key, Ack>, seen: set<Key>, t: nat): set<Key> {
    set k | k in seen && k in acks && acks[k].timeout == t
  }

  function ChosenBackers(acks: map<Key, Ack>, seen: set<Key>, c: Key): set<Key> {
    set k | k in seen && k in acks && acks[k].chosen == c
  }

  function Seen(order: seq<Key>, n: nat): set<Key>
    requires n <= |order|
  {
    set k | k in order[..n]
  }

  /** True when the walk stops at position `i`: with the acknowledgement there, `quorum` of those
      seen share its timeout count, and `quorum` share its chosen observer. */
  predicate StopsAt(acks: map<Key, Ack>, order: seq<Key>, quorum: nat, i: nat) {
    && i < |order| && order[i] in acks
    && |TimeoutBackers(acks, Seen(order, i + 1), acks[order[i]].timeout)| >= quorum
    && |ChosenBackers(acks, Seen(order, i + 1), acks[order[i]].chosen)| >= quorum
  }

  function ChooseAck(acks: map<Key, Ack>, order: seq<Key>, quorum: nat, i: nat): Option<Ack>
    decreases |order| - i
  {
    if i >= |order| then None
    else if StopsAt(acks, order, quorum, i) then Some(acks[order[i]])
    else ChooseAck(acks, order, quorum, i + 1)
  }

  /** How many blocks the chosen formulator may still make; the subtraction is on uint32. */
  function RemainBlocks(cfg: Config, chain: seq<Block>, timeout: nat): nat {
    if timeout == 0 then (cfg.maxBlocks - cfg.blocksBySame(chain)) % UINT32 else cfg.maxBlocks
  }

  function AckCode(cfg: Config, ob: Observer, from: Key, a: Ack, sig: Signature): Code {
    var auth := Authentic(cfg, from, OfAck(a), sig);
    var check := CheckRound(cfg, ob.chain, a.chainID, a.lastHash, a.timeout, a.formulator, a.formulatorKey);
    if auth != Ok then auth
    else if a.target != ob.round.target then InvalidVote
    else if check != Ok then check
    else if ob.round.state != AckVoting then InvalidRoundState
    else if from in ob.round.acks && a.timestamp <= ob.round.acks[from].timestamp then AlreadyVoted
    else Ok
  }

  function WithAck(ob: Observer, from: Key, a: Ack): Observer {
    ob.(round := ob.round.(acks := ob.round.acks[from := a]))
  }

  function AckChoice(cfg: Config, env: Env, ob: Observer): Option<Ack> {
    if |ob.round.acks| >= Majority(cfg) then ChooseAck(ob.round.acks, env.order, Majority(cfg), 0) else None
  }

  function AfterAck(cfg: Config, env: Env, ob: Observer, from: Key, a: Ack): Observer {
    SettleAck(cfg, env, WithAck(ob, from, a))
  }

  function SettleAck(cfg: Config, env: Env, ob: Observer): Observer {
    match AckChoice(cfg, env, ob)
    case None => ob
    case Some(min) => CloseAck(cfg, ob, min)
  }

  function SettleAckOuts(cfg: Config, env: Env, ob: Observer): set<Output> {
    match AckChoice(cfg, env, ob)
    case None => {}
    case Some(min) => AckCloses(cfg, env, ob, min)
  }

  function AckNext(cfg: Config, env: Env, ob: Observer, from: Key, a: Ack, sig: Signature, code: Code): Observer {
    if code == Ok then AfterAck(cfg, env, ob, from, a)
    else if code == InvalidRoundState && ob.round.state == RoundVoting then
      ob.(round := ob.round.(ackWait := ob.round.ackWait[from := AckMessage(a, sig)]))
    else ob
  }

  function AckOuts(cfg: Config, env: Env, ob: Observer, from: Key, a: Ack, code: Code): set<Output> {
    var answer := !a.isReply && from != ob.me;
    match code
    case InvalidVote => Behind(ob, a.target, a.isReply, from)
    case InvalidRoundState =>
      if ob.round.state != RoundVoting && answer then VoteAgainTo(ob, a.target, from) + AckTo(env, ob, from) else {}
    case AlreadyVoted => if !a.isReply then AckTo(env, ob, from) else {}
    case Ok =>
      var acked := WithAck(ob, from, a);
      (if answer then AckTo(env, acked, from) else {}) + SettleAckOuts(cfg, env, acked)
    case _ => {}
  }

  function HandleAck(cfg: Config, env: Env, ob: Observer, from: Key, a: Ack, sig: Signature): Step {
    var code := AckCode(cfg, ob, from, a, sig);
    Step(AckNext(cfg, env, ob, from, a, sig, code), AckOuts(cfg, env, ob, from, a, code), code)
  }

  /** Heights the formulator will not reach are dropped, and waiting blocks of others forgotten. */
  function TrimBlocks(blocks: map<nat, BlockRound>, limit: nat, formulator: Address): map<nat, BlockRound> {
    map h | h in blocks && h < limit ::
      if blocks[h].genWait.Some? && blocks[h].genWait.value.block.header.generator != formulator
      then blocks[h].(genWait := None) else blocks[h]
  }

  function BlocksFor(cfg: Config, ob: Observer, min: Ack): map<nat, BlockRound> {
    TrimBlocks(ob.round.blocks, ob.round.target + RemainBlocks(cfg, ob.chain, min.timeout), min.formulator)
  }

  function CloseAck(cfg: Config, ob: Observer, min: Ack): Observer {
    WithChoice(ob, min, BlocksFor(cfg, ob, min))
  }

  function WithChoice(ob: Observer, min: Ack, blocks: map<nat, BlockRound>): Observer {
    ob.(round := ob.round.(state := BlockWaiting, minAck := Some(min),
      blocks := ForgetWaiting(blocks, ob.round.target)))
  }

  /** The setup message for the chosen acknowledgement, and the block that came early. */
  function AckCloses(cfg: Config, env: Env, ob: Observer, min: Ack): set<Output> {
    ChoiceOuts(env, ob, min, BlocksFor(cfg, ob, min))
  }

  function ChoiceOuts(env: Env, ob: Observer, min: Ack, blocks: map<nat, BlockRound>): set<Output> {
    var setup := min.(timestamp := env.now, isReply := false);
    {Broadcast(SetupMessage(setup, Sign(ob.me, OfAck(setup))))} + QueueWaiting(blocks, ob.round.target)
  }

  function SetupCode(cfg: Config, ob: Observer, from: Key, a: Ack, sig: Signature): Code {
    var auth := Authentic(cfg, from, OfAck(a), sig);
    if auth != Ok then auth
    else if a.target !in ob.round.blocks || a.target != ob.round.target then InvalidVote
    else CheckRound(cfg, ob.chain, a.chainID, a.lastHash, a.timeout, a.formulator, a.formulatorKey)
  }

  function SetupOuts(ob: Observer, from: Key, a: Ack, code: Code): set<Output> {
    match code
    case InvalidVote => if a.target in ob.round.blocks then Behind(ob, a.target, a.isReply, from) else {}
    case Ok =>
      if ob.round.state != BlockVoting || a.target !in ob.round.blocks then {} else
      var br := ob.round.blocks[a.target];
      (if from !in br.votes && from != ob.me && br.gen.Some? then {To(from, BlockGenMessage(br.gen.value))} else {})
      + VoteAgainTo(ob, a.target, from)
    case _ => {}
  }

  function HandleSetup(cfg: Config, ob: Observer, from: Key, a: Ack, sig: Signature): Step {
    var code := SetupCode(cfg, ob, from, a, sig);
    Step(ob, SetupOuts(ob, from, a, code), code)
  }

  // ---- blocks ----

  /** The header names the formulator that the rank table puts at its timeout count. */
  function CheckTop(cfg: Config, chain: seq<Block>, h: Header): Code {
    if h.timeoutCount.None? then BadConsensusData
    else match TopRank(cfg, chain, h.timeoutCount.value)
      case None => InsufficientCandidates
      case Some(top) => if h.generator != top.address then InvalidVote else Ok
  }

  /** The header is signed by the key that the rank table and the chosen acknowledgement name. */
  function CheckSigner(cfg: Config, chain: seq<Block>, min: Ack, h: Header, genSig: Signature): Code
    requires CheckTop(cfg, chain, h) == Ok
  {
    match RecoverPubkey(OfHeader(h), genSig)
    case None => BadSignature
    case Some(signer) =>
      if signer != TopRank(cfg, chain, h.timeoutCount.value).value.publicHash then InvalidTopSignature
      else if h.generator != min.formulator || signer != min.formulatorKey then InvalidVote
      else Ok
  }

  /** The block is for a later height, or this height has not chosen its formulator yet. */
  predicate GenEarly(r: Round, h: nat) {
    h > r.target || (h == r.target && (r.state == RoundVoting || r.state == AckVoting))
  }

  predicate GenFree(r: Round, h: nat) { h in r.blocks && r.blocks[h].gen.None? }

  function BlockGenCode(cfg: Config, env: Env, ob: Observer, gen: BlockGen): Code {
    var r := ob.round;
    var h := gen.block.header;
    if !GenFree(r, h.height) || h.height != r.target || r.state != BlockWaiting then InvalidVote
    else if CheckTop(cfg, ob.chain, h) != Ok then CheckTop(cfg, ob.chain, h)
    else if r.minAck.None? then Panic
    else if h.generator != r.minAck.value.formulator then InvalidVote
    else if r.blocks[h.height].genWait.Some? && h != r.blocks[h.height].genWait.value.block.header then ForkedBlockGen
    else
      var check := CheckSigner(cfg, ob.chain, r.minAck.value, h, gen.genSig);
      if check != Ok then check
      else if !ValidHeader(cfg, ob.chain, h) then BadHeader
      else if h.timestamp > env.now + TEN_SECONDS then InvalidVote
      else if !cfg.executes(ob.chain, gen.block) then BadExecution
      else Ok
  }

  function AfterBlockGen(ob: Observer, gen: BlockGen): Observer
    requires gen.block.header.height in ob.round.blocks
  {
    var h := gen.block.header.height;
    ob.(round := ob.round.(state := BlockVoting, blocks := ob.round.blocks[h := ob.round.blocks[h].(gen := Some(gen))]))
  }

  function BlockGenNext(ob: Observer, gen: BlockGen, code: Code): Observer {
    var h := gen.block.header.height;
    if !GenFree(ob.round, h) then ob
    else if code == Ok then AfterBlockGen(ob, gen)
    else if GenEarly(ob.round, h) then WithBlock(ob, h, ob.round.blocks[h].(genWait := Some(gen)))
    else ob
  }

  function BlockGenOuts(ob: Observer, gen: BlockGen, code: Code): set<Output> {
    var h := gen.block.header.height;
    if code != Ok || h !in ob.round.blocks then {}
    else
      {Broadcast(SignedVote(ob.me, gen, false))}
      + (set j | j in ob.round.blocks[h].voteWait :: Requeue(j, ob.round.blocks[h].voteWait[j]))
  }

  function HandleBlockGen(cfg: Config, env: Env, ob: Observer, gen: BlockGen): Step {
    var code := BlockGenCode(cfg, env, ob, gen);
    Step(BlockGenNext(ob, gen, code), BlockGenOuts(ob, gen, code), code)
  }

  function BlockVoteCode(cfg: Config, ob: Observer, from: Key, v: BlockVote, sig: Signature): Code {
    var r := ob.round;
    var h := v.header;
    var auth := Authentic(cfg, from, OfBlockVote(v), sig);
    if auth != Ok then auth
    else if h.height !in r.blocks || h.height != r.target || r.state != BlockVoting then InvalidVote
    else if CheckTop(cfg, ob.chain, h) != Ok then CheckTop(cfg, ob.chain, h)
    else if r.minAck.None? || r.blocks[h.height].gen.None? then Panic
    else
      var check := CheckSigner(cfg, ob.chain, r.minAck.value, h, v.genSig);
      if check != Ok then check
      else if h.prevHash != LastHash(ob.chain) || h != r.blocks[h.height].gen.value.block.header then InvalidVote
      else if !ValidHeader(cfg, ob.chain, h) then BadHeader
      else if RecoverPubkey(OfBlockSign(h, v.genSig), v.obSig) == None then BadSignature
      else if RecoverPubkey(OfBlockSign(h, v.genSig), v.obSig) != Some(from) then InvalidVote
      else if from in r.blocks[h.height].votes then AlreadyVoted
      else Ok
  }

  /** A vote that comes early is kept; one for an ignored formulator clears the failure count. */
  function KeepVote(env: Env, ob: Observer, from: Key, v: BlockVote, sig: Signature): Observer
    requires v.header.height in ob.round.blocks
  {
    var h := v.header.height;
    var br := ob.round.blocks[h];
    var kept := WithBlock(ob, h, br.(voteWait := br.voteWait[from := BlockVoteMessage(v, sig)]));
    if h == ob.round.target && v.header.generator in env.ignored
    then kept.(round := kept.round.(failCount := 0)) else kept
  }

  function WithBlockVote(ob: Observer, from: Key, v: BlockVote): Observer
    requires v.header.height in ob.round.blocks
  {
    var h := v.header.height;
    WithBlock(ob, h, ob.round.blocks[h].(votes := ob.round.blocks[h].votes[from := v]))
  }

  predicate VoteEarly(r: Round, h: nat) {
    h in r.blocks && (h > r.target || (h == r.target && r.state != BlockVoting))
  }

  predicate VoteLands(r: Round, h: nat) {
    h in r.blocks && h == r.target && r.state == BlockVoting && r.blocks[h].gen.Some?
  }

  function AfterBlockVote(cfg: Config, env: Env, ob: Observer): Step
    requires VoteLands(ob.round, ob.round.target)
  {
    var b := VotedBlock(env, ob);
    if |ob.round.blocks[ob.round.target].votes| < Majority(cfg) then Step(ob, {}, Ok)
    else
      var code := ConnectCode(cfg, env, ob, b);
      Step(ConnectNext(cfg, ob, b, code), ConnectOuts(cfg, ob, b, code), code)
  }

  function LandVote(cfg: Config, env: Env, ob: Observer, from: Key, v: BlockVote): Step
    requires VoteLands(ob.round, v.header.height)
  {
    var voted := WithBlockVote(ob, from, v);
    var st := AfterBlockVote(cfg, env, voted);
    Step(st.ob, st.outs + (if !v.isReply then VoteAgainTo(voted, v.header.height, from) else {}), st.code)
  }

  function HandleBlockVote(cfg: Config, env: Env, ob: Observer, from: Key, v: BlockVote, sig: Signature): Step {
    var h := v.header.height;
    var code := BlockVoteCode(cfg, ob, from, v, sig);
    if code == Ok && VoteLands(ob.round, h) then LandVote(cfg, env, ob, from, v)
    else if code == InvalidVote && VoteEarly(ob.round, h) then Step(KeepVote(env, ob, from, v, sig), {}, code)
    else Step(ob, BlockVoteOuts(ob, from, v, code), code)
  }

  function BlockVoteOuts(ob: Observer, from: Key, v: BlockVote, code: Code): set<Output> {
    match code
    case InvalidVote =>
      if v.header.height in ob.round.blocks && v.header.height < ob.round.target && from != ob.me
      then {Status(from)} else {}
    case AlreadyVoted => if !v.isReply then VoteAgainTo(ob, v.header.height, from) else {}
    case _ => {}
  }

  /** A walk over a map visits each key once. */
  ghost predicate IsOrder(order: seq<Key>, keys: set<Key>) {
    && (forall i, j :: 0 <= i < j < |order| ==> order[i] != order[j])
    && (forall k :: k in keys <==> k in order)
  }

  /** The signatures of the block that is connected: the generator's, then one for each vote, in the
      order the vote map was walked. */
  function AssembleSigs(br: BlockRound, order: seq<Key>): seq<Signature>
    requires br.gen.Some?
  {
    [br.gen.value.genSig] + seq(|order|, i requires 0 <= i < |order| =>
      if order[i] in br.votes then br.votes[order[i]].obSig else br.gen.value.genSig)
  }

  function Assemble(br: BlockRound, order: seq<Key>): Block
    requires br.gen.Some?
  {
    Block(br.gen.value.block.header, br.gen.value.block.body, AssembleSigs(br, order))
  }

  function ConnectCode(cfg: Config, env: Env, ob: Observer, b: Block): Code {
    var chain := ob.chain + [b];
    if !cfg.connects(ob.chain, b) then NotConnected
    else if ob.round.minAck.None? then Panic
    else
      var others := env.formulators - {ob.round.minAck.value.formulator};
      if others != {} && TopRankInMap(cfg, chain, others).None? then InsufficientCandidates
      else if TopRank(cfg, chain, 0).None? then InsufficientCandidates
      else Ok
  }

  /** The formulator goes on with the next height, or a new round starts. */
  function AfterConnect(cfg: Config, ob: Observer): Observer {
    var next := ob.round.target + 1;
    if GoesOn(cfg, ob, next) then ob.(round := ob.round.(state := BlockWaiting, target := next, failCount := 0))
    else ResetRound(cfg, ob)
  }

  function Grown(ob: Observer, b: Block): Observer { ob.(chain := ob.chain + [b]) }

  function VotedBlock(env: Env, ob: Observer): Block
    requires VoteLands(ob.round, ob.round.target)
  {
    Assemble(ob.round.blocks[ob.round.target], env.order)
  }

  function ConnectNext(cfg: Config, ob: Observer, b: Block, code: Code): Observer {
    match code
    case NotConnected => ob
    case Ok => AfterConnect(cfg, Grown(ob, b))
    case _ => Grown(ob, b)
  }

  function ConnectOuts(cfg: Config, ob: Observer, b: Block, code: Code): set<Output> {
    var next := ob.round.target + 1;
    if code == Ok && GoesOn(cfg, Grown(ob, b), next) then QueueWaiting(ob.round.blocks, next) else {}
  }

  // ---- blocks received whole ----

  /** The consensus check on a finished block: the generator is the ranked one, and exactly a
      majority of distinct observers signed the header together with the generator's signature. */
  predicate ValidSignatures(cfg: Config, chain: seq<Block>, b: Block) {
    && b.header.timeoutCount.Some?
    && TopRank(cfg, chain, b.header.timeoutCount.value).Some?
    && TopRank(cfg, chain, b.header.timeoutCount.value).value.address == b.header.generator
    && |b.sigs| == |cfg.keys| / 2 + 2
    && RecoverPubkey(OfHeader(b.header), b.sigs[0])
       == Some(TopRank(cfg, chain, b.header.timeoutCount.value).value.publicHash)
    && SignedByMajority(OfBlockSign(b.header, b.sigs[0]), b.sigs[1..], cfg.keys)
  }

  predicate SignedByMajority(payload: Payload, sigs: seq<Signature>, keys: set<Key>) {
    && |sigs| == |keys| / 2 + 1
    && (forall i :: 0 <= i < |sigs| ==> sigs[i].payload == payload && sigs[i].signer in keys)
    && (forall i, j :: 0 <= i < j < |sigs| ==> sigs[i].signer != sigs[j].signer)
  }

  ghost function Signers(sigs: seq<Signature>, n: nat): set<Key>
    requires n <= |sigs|
  {
    set i | 0 <= i < n :: sigs[i].signer
  }

  ghost predicate DistinctSigners(sigs: seq<Signature>, n: nat)
    requires n <= |sigs|
  {
    forall i, j :: 0 <= i < j < n ==> sigs[i].signer != sigs[j].signer
  }

  lemma {:induction false} SignersSize(sigs: seq<Signature>, n: nat)
    requires n <= |sigs|
    ensures |Signers(sigs, n)| <= n
    ensures |Signers(sigs, n)| == n <==> DistinctSigners(sigs, n)
  {
    if n > 0 {
      SignersSize(sigs, n - 1);
      var k := sigs[n - 1].signer;
      assert Signers(sigs, n) == Signers(sigs, n - 1) + {k};
    }
  }

  function HandleBlock(ob: Observer, b: Block): Step {
    if b.header.height <= |ob.chain| then
      if b.header.height > 0 && ob.chain[b.header.height - 1].header == b.header then Step(ob, {}, Ok)
      else Step(ob, {}, ForkedBlock)
    else if b.header.height in ob.blockQ then
      Step(ob, {}, if ob.blockQ[b.header.height].header == b.header then Ok else ForkedBlock)
    else Step(ob.(blockQ := ob.blockQ[b.header.height := b]), {}, Ok)
  }

  /** One turn of the block timer: the queued block of the next height, if any, is connected
      after the full check; a block that fails the check stops the process. */
  function ConnectQueued(cfg: Config, ob: Observer): Step {
    var target := |ob.chain| + 1;
    var rest := map h | h in ob.blockQ && h > target :: ob.blockQ[h];
    if target !in ob.blockQ then
      Step(ob.(blockQ := map h | h in ob.blockQ && h >= target :: ob.blockQ[h]), {}, Ok)
    else
      var b := ob.blockQ[target];
      if ValidHeader(cfg, ob.chain, b.header) && ValidSignatures(cfg, ob.chain, b)
         && cfg.executes(ob.chain, b) && cfg.connects(ob.chain, b) then
        Step(ob.(chain := ob.chain + [b], blockQ := rest), {}, Ok)
      else Step(ob, {}, Panic)
  }

  // ---- events ----

  ghost function Handle(cfg: Config, env: Env, ob: Observer, from: Key, m: Message): Step {
    match m
    case RoundVoteMessage(v, sig) => HandleRoundVote(cfg, env, ob, from, v, sig)
    case AckMessage(a, sig) => HandleAck(cfg, env, ob, from, a, sig)
    case SetupMessage(a, sig) => HandleSetup(cfg, ob, from, a, sig)
    case BlockGenMessage(gen) => HandleBlockGen(cfg, env, ob, gen)
    case BlockVoteMessage(v, sig) => HandleBlockVote(cfg, env, ob, from, v, sig)
    case BlockMessage(b) => HandleBlock(ob, b)
  }

  ghost function Receive(cfg: Config, env: Env, ob: Observer, from: Key, m: Message): Step {
    var s := Sync(cfg, ob);
    if s.code != Ok then s else
    var t := Handle(cfg, env, s.ob, from, m);
    Step(t.ob, s.outs + t.outs, t.code)
  }

  /** True when this turn of the vote timer gives the round up (line 292 of observer_node.go). */
  predicate FailureReset(cfg: Config, env: Env, ob: Observer) {
    Sync(cfg, ob).code == Ok && env.formulators != {} && Sync(cfg, ob).ob.round.failCount + 1 > MAX_VOTE_FAIL
  }

  /** The vote timer: counts a failure, gives the round up after too many, and repeats the vote of
      the current stage. */
  function Tick(cfg: Config, env: Env, ob: Observer): Step {
    var s := Sync(cfg, ob);
    if s.code != Ok || env.formulators == {} then s
    else
      var counted := s.ob.(round := s.ob.round.(failCount := s.ob.round.failCount + 1));
      if counted.round.failCount > MAX_VOTE_FAIL then
        var blamed := if counted.round.minAck.Some? then {counted.round.minAck.value.formulator} else {};
        var t := Repeat(cfg, env.(formulators := env.formulators - blamed), ResetRound(cfg, counted));
        Step(t.ob, s.outs + t.outs, Ok)
      else
        var t := Repeat(cfg, env, counted);
        Step(t.ob, s.outs + t.outs, Ok)
  }

  function Repeat(cfg: Config, env: Env, ob: Observer): Step {
    if ob.round.state == RoundVoting then
      match TopRankInMap(cfg, ob.chain, env.formulators)
      case None => Step(ob, {}, Ok)
      case Some(top) =>
        Step(ob.(round := ob.round.(failCount := 0)), {Broadcast(RoundVoteFor(cfg, env, ob, top, false))}, Ok)
    else if ob.round.state == BlockVoting && ob.round.target in ob.round.blocks
            && ob.round.blocks[ob.round.target].gen.Some? then
      Step(ob, {Broadcast(SignedVote(ob.me, ob.round.blocks[ob.round.target].gen.value, false))}, Ok)
    else Step(ob, {}, Ok)
  }

  function Restart(cfg: Config, ob: Observer): Observer {
    Observer(ob.me, ob.chain, NewVoteRound(|ob.chain| + 1, cfg.maxBlocks), map[])
  }
}
