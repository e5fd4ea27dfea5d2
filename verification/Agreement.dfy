/** Agreement: over whole runs of the observers, against a network and formulators that may do
    anything except forge an observer's signature. */
module Agreement {
  import opened Options
  import opened ObserverTypes
  import opened ObserverRound

  // ---- what every event keeps of one observer ----

  /** The header the observer has voted for at its current height. */
  ghost function Voted(ob: Observer): Option<Header> {
    var r := ob.round;
    if r.state == BlockVoting && r.target in r.blocks && r.blocks[r.target].gen.Some?
    then Some(r.blocks[r.target].gen.value.block.header) else None
  }

  /** The generated block is signed by the key of the chosen acknowledgement. */
  ghost predicate GenSigned(r: Round, gen: BlockGen) {
    && r.minAck.Some?
    && gen.genSig.payload == OfHeader(gen.block.header)
    && gen.genSig.signer == r.minAck.value.formulatorKey
  }

  ghost predicate RoundInv(ob: Observer) {
    var r := ob.round;
    && r.target <= |ob.chain| + 1
    && (r.state == BlockWaiting || r.state == BlockVoting ==> r.minAck.Some?)
    && (r.state == BlockVoting ==> Voted(ob).Some? && GenSigned(r, r.blocks[r.target].gen.value))
    && (forall h :: h in r.blocks && r.blocks[h].gen.Some? ==>
          && r.blocks[h].gen.value.block.header.height == h
          && (h < r.target || (h == r.target && r.state == BlockVoting)))
  }

  /** A height, once voted on, keeps its header until the observer has moved on. */
  ghost predicate Evolves(a: Observer, b: Observer) {
    && a.me == b.me
    && a.round.target <= b.round.target
    && (a.round.target == b.round.target && Voted(a).Some? ==> Voted(b) == Voted(a))
  }

  ghost function MadeIn(m: Message): set<Signature> {
    match m
    case RoundVoteMessage(_, sig) => {sig}
    case AckMessage(_, sig) => {sig}
    case SetupMessage(_, sig) => {sig}
    case BlockVoteMessage(v, sig) => {sig, v.obSig}
    case BlockGenMessage(_) => {}
    case BlockMessage(_) => {}
  }

  /** The signatures the observer made for an output. */
  ghost function Made(o: Output): set<Signature> {
    match o
    case Broadcast(m) => MadeIn(m)
    case To(_, m) => MadeIn(m)
    case Requeue(_, _) => {}
    case Status(_) => {}
  }

  ghost predicate SignsOnly(o: Output, me: Key, voted: Option<Header>) {
    forall s :: s in Made(o) ==>
      s.signer == me && (s.payload.OfBlockSign? ==> voted == Some(s.payload.header))
  }

  ghost predicate Signs(outs: set<Output>, me: Key, voted: Option<Header>) {
    forall o :: o in outs ==> SignsOnly(o, me, voted)
  }

  lemma SyncMoves(cfg: Config, ob: Observer)
    requires RoundInv(ob) && ob.round.target <= |ob.chain|
    ensures RoundInv(Synced(cfg, ob)) && Evolves(ob, Synced(cfg, ob))
  {
  }

  lemma SyncKeeps(cfg: Config, ob: Observer)
    requires RoundInv(ob)
    ensures RoundInv(Sync(cfg, ob).ob) && Evolves(ob, Sync(cfg, ob).ob)
    ensures forall o :: o in Sync(cfg, ob).outs ==> Made(o) == {}
    ensures Sync(cfg, ob).code == Ok ==> Sync(cfg, ob).ob.round.target == |ob.chain| + 1
    ensures Sync(cfg, ob).ob.chain == ob.chain
  {
    if ob.round.target <= |ob.chain| { SyncMoves(cfg, ob); }
  }

  // ---- what the events do to the round ----

  /** An event that changes neither the stage nor a generated block. */
  ghost predicate SameGens(a: Round, b: Round) {
    && a.state == b.state && a.target == b.target && a.minAck == b.minAck
    && a.blocks.Keys == b.blocks.Keys
    && forall h :: h in a.blocks ==> a.blocks[h].gen == b.blocks[h].gen
  }

  lemma SameGensMoves(a: Observer, b: Observer)
    requires RoundInv(a) && a.me == b.me && a.chain == b.chain && SameGens(a.round, b.round)
    ensures RoundInv(b) && Evolves(a, b) && Voted(a) == Voted(b)
  {
  }

  lemma RoundVoteMoves(cfg: Config, ob: Observer, from: Key, v: RoundVote)
    requires RoundInv(ob) && ob.round.state == RoundVoting
    ensures RoundInv(AfterRoundVote(cfg, ob, from, v)) && Evolves(ob, AfterRoundVote(cfg, ob, from, v))
  {
  }

  lemma CloseAckMoves(cfg: Config, ob: Observer, min: Ack)
    requires RoundInv(ob) && ob.round.state == AckVoting
    ensures RoundInv(CloseAck(cfg, ob, min)) && Evolves(ob, CloseAck(cfg, ob, min))
  {
  }

  lemma AckMoves(cfg: Config, env: Env, ob: Observer, from: Key, a: Ack, sig: Signature, code: Code)
    requires RoundInv(ob) && (code == Ok ==> ob.round.state == AckVoting)
    ensures RoundInv(AckNext(cfg, env, ob, from, a, sig, code))
    ensures Evolves(ob, AckNext(cfg, env, ob, from, a, sig, code))
  {
    var acked := WithAck(ob, from, a);
    SameGensMoves(ob, acked);
    if code == Ok && AckChoice(cfg, env, acked).Some? {
      CloseAckMoves(cfg, acked, AckChoice(cfg, env, acked).value);
    } else if code != Ok {
      SameGensMoves(ob, AckNext(cfg, env, ob, from, a, sig, code));
    }
  }

  lemma BlockGenMoves(ob: Observer, gen: BlockGen, code: Code)
    requires RoundInv(ob)
    requires code == Ok ==>
      ob.round.state == BlockWaiting && gen.block.header.height == ob.round.target && GenSigned(ob.round, gen)
    ensures RoundInv(BlockGenNext(ob, gen, code)) && Evolves(ob, BlockGenNext(ob, gen, code))
  {
  }

  lemma ConnectMoves(cfg: Config, ob: Observer)
    requires RoundInv(ob) && ob.round.target == |ob.chain|
    ensures RoundInv(AfterConnect(cfg, ob)) && Evolves(ob, AfterConnect(cfg, ob))
  {
  }

  lemma KeepVoteMoves(env: Env, ob: Observer, from: Key, v: BlockVote, sig: Signature)
    requires RoundInv(ob) && v.header.height in ob.round.blocks
    ensures RoundInv(KeepVote(env, ob, from, v, sig)) && Evolves(ob, KeepVote(env, ob, from, v, sig))
  {
    SameGensMoves(ob, KeepVote(env, ob, from, v, sig));
  }

  lemma VoteMoves(ob: Observer, from: Key, v: BlockVote)
    requires RoundInv(ob) && VoteLands(ob.round, v.header.height)
    ensures RoundInv(WithBlockVote(ob, from, v)) && Voted(WithBlockVote(ob, from, v)) == Voted(ob)
    ensures VoteLands(WithBlockVote(ob, from, v).round, v.header.height)
  {
    SameGensMoves(ob, WithBlockVote(ob, from, v));
  }

  lemma AfterBlockVoteMoves(cfg: Config, env: Env, ob: Observer)
    requires RoundInv(ob) && VoteLands(ob.round, ob.round.target) && ob.round.target == |ob.chain| + 1
    ensures RoundInv(AfterBlockVote(cfg, env, ob).ob)
    ensures Evolves(ob, AfterBlockVote(cfg, env, ob).ob)
  {
    var grown := Grown(ob, VotedBlock(env, ob));
    assert RoundInv(grown) && Voted(grown) == Voted(ob);
    ConnectMoves(cfg, grown);
  }

  lemma LandVoteMoves(cfg: Config, env: Env, ob: Observer, from: Key, v: BlockVote)
    requires RoundInv(ob) && ob.round.target == |ob.chain| + 1 && VoteLands(ob.round, v.header.height)
    ensures RoundInv(LandVote(cfg, env, ob, from, v).ob) && Evolves(ob, LandVote(cfg, env, ob, from, v).ob)
  {
    VoteMoves(ob, from, v);
    AfterBlockVoteMoves(cfg, env, WithBlockVote(ob, from, v));
  }

  lemma BlockVoteMoves(cfg: Config, env: Env, ob: Observer, from: Key, v: BlockVote, sig: Signature)
    requires RoundInv(ob) && ob.round.target == |ob.chain| + 1
    ensures RoundInv(HandleBlockVote(cfg, env, ob, from, v, sig).ob)
    ensures Evolves(ob, HandleBlockVote(cfg, env, ob, from, v, sig).ob)
  {
    if VoteLands(ob.round, v.header.height) {
      LandVoteMoves(cfg, env, ob, from, v);
    } else if VoteEarly(ob.round, v.header.height) {
      KeepVoteMoves(env, ob, from, v, sig);
    }
  }

  // ---- what the events sign ----

  lemma RoundVoteToSigns(cfg: Config, env: Env, ob: Observer, to: Key, voted: Option<Header>)
    ensures Signs(RoundVoteTo(cfg, env, ob, to), ob.me, voted)
  {
  }

  lemma AckToSigns(env: Env, ob: Observer, to: Key, voted: Option<Header>)
    ensures Signs(AckTo(env, ob, to), ob.me, voted)
  {
  }

  lemma VoteAgainSigns(ob: Observer, to: Key)
    ensures Signs(VoteAgainTo(ob, ob.round.target, to), ob.me, Voted(ob))
  {
  }

  lemma RoundVoteClosesSigns(env: Env, ob: Observer, voted: Option<Header>)
    ensures Signs(RoundVoteCloses(env, ob), ob.me, voted)
  {
  }

  lemma AckClosesSigns(cfg: Config, env: Env, ob: Observer, min: Ack, voted: Option<Header>)
    ensures Signs(AckCloses(cfg, env, ob, min), ob.me, voted)
  {
  }

  lemma RoundVoteSigns(cfg: Config, env: Env, ob: Observer, from: Key, v: RoundVote, code: Code)
    requires code == InvalidRoundState ==> v.target == ob.round.target
    ensures Signs(RoundVoteOuts(cfg, env, ob, from, v, code), ob.me, Voted(ob))
  {
    match code {
      case Ok =>
        RoundVoteToSigns(cfg, env, WithRoundVote(ob, from, v), from, Voted(ob));
        RoundVoteClosesSigns(env, AfterRoundVote(cfg, ob, from, v), Voted(ob));
      case InvalidRoundState =>
        RoundVoteToSigns(cfg, env, ob, from, Voted(ob));
        VoteAgainSigns(ob, from);
      case AlreadyVoted =>
        RoundVoteToSigns(cfg, env, ob, from, Voted(ob));
      case _ =>
    }
  }

  lemma AckSigns(cfg: Config, env: Env, ob: Observer, from: Key, a: Ack, code: Code)
    requires code == InvalidRoundState ==> a.target == ob.round.target
    ensures Signs(AckOuts(cfg, env, ob, from, a, code), ob.me, Voted(ob))
  {
    match code {
      case Ok =>
        var acked := WithAck(ob, from, a);
        AckToSigns(env, acked, from, Voted(ob));
        if AckChoice(cfg, env, acked).Some? {
          AckClosesSigns(cfg, env, acked, AckChoice(cfg, env, acked).value, Voted(ob));
        }
      case InvalidRoundState =>
        AckToSigns(env, ob, from, Voted(ob));
        VoteAgainSigns(ob, from);
      case AlreadyVoted =>
        AckToSigns(env, ob, from, Voted(ob));
      case _ =>
    }
  }

  lemma SetupSigns(ob: Observer, from: Key, a: Ack, code: Code)
    requires code == Ok ==> a.target == ob.round.target
    ensures Signs(SetupOuts(ob, from, a, code), ob.me, Voted(ob))
  {
    VoteAgainSigns(ob, from);
  }

  lemma BlockGenSigns(ob: Observer, gen: BlockGen, code: Code)
    requires code == Ok ==> gen.block.header.height == ob.round.target && GenFree(ob.round, ob.round.target)
    ensures Signs(BlockGenOuts(ob, gen, code), ob.me, Voted(BlockGenNext(ob, gen, code)))
  {
  }

  lemma LandVoteSigns(cfg: Config, env: Env, ob: Observer, from: Key, v: BlockVote)
    requires RoundInv(ob) && VoteLands(ob.round, v.header.height)
    ensures Signs(LandVote(cfg, env, ob, from, v).outs, ob.me, Voted(ob))
  {
    VoteMoves(ob, from, v);
    VoteAgainSigns(WithBlockVote(ob, from, v), from);
  }

  lemma SecondVoteLands(cfg: Config, ob: Observer, from: Key, v: BlockVote, sig: Signature)
    requires BlockVoteCode(cfg, ob, from, v, sig) == AlreadyVoted
    ensures v.header.height == ob.round.target
  {
  }

  lemma BlockVoteOutsSigns(ob: Observer, from: Key, v: BlockVote, code: Code, outs: set<Output>)
    requires outs == BlockVoteOuts(ob, from, v, code) && (code == AlreadyVoted ==> v.header.height == ob.round.target)
    ensures Signs(outs, ob.me, Voted(ob))
  {
    VoteAgainSigns(ob, from);
  }

  lemma BlockVoteSigns(cfg: Config, env: Env, ob: Observer, from: Key, v: BlockVote, sig: Signature)
    requires RoundInv(ob)
    ensures Signs(HandleBlockVote(cfg, env, ob, from, v, sig).outs, ob.me, Voted(ob))
  {
    var code := BlockVoteCode(cfg, ob, from, v, sig);
    if code == Ok && VoteLands(ob.round, v.header.height) {
      LandVoteSigns(cfg, env, ob, from, v);
    } else {
      if code == AlreadyVoted { SecondVoteLands(cfg, ob, from, v, sig); }
      BlockVoteOutsSigns(ob, from, v, code, BlockVoteOuts(ob, from, v, code));
    }
  }

  // ---- the evidence behind votes and connected blocks ----

  /** Observer `k` has signed header `h`. */
  ghost predicate Cast(signed: set<Signature>, k: Key, h: Header) {
    exists s :: s in signed && s.signer == k && s.payload.OfBlockSign? && s.payload.header == h
  }

  ghost predicate CastByAll(signed: set<Signature>, q: set<Key>, h: Header) {
    forall k :: k in q ==> Cast(signed, k, h)
  }

  ghost predicate Certified(cfg: Config, signed: set<Signature>, h: Header) {
    exists q: set<Key> :: q <= cfg.keys && |q| >= Majority(cfg) && CastByAll(signed, q, h)
  }

  ghost predicate VotesSigned(cfg: Config, signed: set<Signature>, br: BlockRound) {
    forall k :: k in br.votes ==>
      && k in cfg.keys && br.gen.Some?
      && br.votes[k].obSig in signed && br.votes[k].obSig.signer == k
      && br.votes[k].obSig.payload == OfBlockSign(br.gen.value.block.header, br.votes[k].genSig)
  }

  ghost predicate VotesInv(cfg: Config, ob: Observer, signed: set<Signature>) {
    forall h :: h in ob.round.blocks ==> VotesSigned(cfg, signed, ob.round.blocks[h])
  }

  ghost predicate SigsKnown(cfg: Config, sigs: seq<Signature>, signed: set<Signature>) {
    forall i :: 0 <= i < |sigs| && sigs[i].signer in cfg.keys ==> sigs[i] in signed
  }

  ghost predicate QueueInv(cfg: Config, ob: Observer, signed: set<Signature>) {
    forall h :: h in ob.blockQ ==> SigsKnown(cfg, ob.blockQ[h].sigs, signed)
  }

  ghost predicate Linked(chain: seq<Block>) {
    forall i {:trigger chain[i]} :: 0 <= i < |chain| ==>
      chain[i].header.height == i + 1 && chain[i].header.prevHash == LastHash(chain[..i])
  }

  ghost predicate ChainInv(cfg: Config, ob: Observer, signed: set<Signature>) {
    && Linked(ob.chain)
    && (forall i :: 0 <= i < |ob.chain| ==> Certified(cfg, signed, ob.chain[i].header))
  }

  ghost predicate Evidence(cfg: Config, ob: Observer, signed: set<Signature>) {
    VotesInv(cfg, ob, signed) && QueueInv(cfg, ob, signed) && ChainInv(cfg, ob, signed)
  }

  /** The signatures a message carries. */
  ghost function Carried(m: Message): set<Signature> {
    match m
    case RoundVoteMessage(_, sig) => {sig}
    case AckMessage(_, sig) => {sig}
    case SetupMessage(_, sig) => {sig}
    case BlockGenMessage(gen) => {gen.genSig} + (set s | s in gen.block.sigs)
    case BlockVoteMessage(v, sig) => {sig, v.genSig, v.obSig}
    case BlockMessage(b) => set s | s in b.sigs
  }

  /** What the network may deliver: anything whose observer signatures were made by observers. */
  ghost predicate Deliverable(cfg: Config, signed: set<Signature>, m: Message) {
    forall s :: s in Carried(m) && s.signer in cfg.keys ==> s in signed
  }

  lemma EvidenceGrows(cfg: Config, ob: Observer, signed: set<Signature>, more: set<Signature>)
    requires Evidence(cfg, ob, signed) && signed <= more
    ensures Evidence(cfg, ob, more)
  {
    forall i | 0 <= i < |ob.chain| ensures Certified(cfg, more, ob.chain[i].header) {
      assert Certified(cfg, signed, ob.chain[i].header);
      var q :| q <= cfg.keys && |q| >= Majority(cfg) && CastByAll(signed, q, ob.chain[i].header);
      assert CastByAll(more, q, ob.chain[i].header);
    }
  }

  lemma SyncEvidence(cfg: Config, ob: Observer, signed: set<Signature>)
    requires Evidence(cfg, ob, signed)
    ensures Evidence(cfg, Sync(cfg, ob).ob, signed)
  {
  }

  lemma CloseAckEvidence(cfg: Config, ob: Observer, min: Ack, signed: set<Signature>)
    requires Evidence(cfg, ob, signed)
    ensures Evidence(cfg, CloseAck(cfg, ob, min), signed)
  {
  }

  lemma AckEvidence(cfg: Config, env: Env, ob: Observer, from: Key, a: Ack, sig: Signature, code: Code,
                    signed: set<Signature>)
    requires Evidence(cfg, ob, signed)
    ensures Evidence(cfg, AckNext(cfg, env, ob, from, a, sig, code), signed)
  {
    var acked := WithAck(ob, from, a);
    if code == Ok && AckChoice(cfg, env, acked).Some? {
      CloseAckEvidence(cfg, acked, AckChoice(cfg, env, acked).value, signed);
    }
  }

  lemma BlockGenEvidence(cfg: Config, ob: Observer, gen: BlockGen, code: Code, signed: set<Signature>)
    requires Evidence(cfg, ob, signed)
    ensures Evidence(cfg, BlockGenNext(ob, gen, code), signed)
  {
  }

  lemma KeepVoteEvidence(cfg: Config, env: Env, ob: Observer, from: Key, v: BlockVote, sig: Signature,
                         signed: set<Signature>)
    requires Evidence(cfg, ob, signed) && v.header.height in ob.round.blocks
    ensures Evidence(cfg, KeepVote(env, ob, from, v, sig), signed)
  {
  }

  lemma VoteEvidence(cfg: Config, ob: Observer, from: Key, v: BlockVote, sig: Signature, signed: set<Signature>)
    requires Evidence(cfg, ob, signed)
    requires BlockVoteCode(cfg, ob, from, v, sig) == Ok
    requires Deliverable(cfg, signed, BlockVoteMessage(v, sig))
    ensures Evidence(cfg, WithBlockVote(ob, from, v), signed)
  {
  }

  /** A vote map as large as a majority certifies the header it is for. */
  lemma VotesCertify(cfg: Config, br: BlockRound, signed: set<Signature>)
    requires br.gen.Some? && VotesSigned(cfg, signed, br) && |br.votes| >= Majority(cfg)
    ensures Certified(cfg, signed, br.gen.value.block.header)
  {
    var q := br.votes.Keys;
    forall k | k in q ensures Cast(signed, k, br.gen.value.block.header) {
      assert br.votes[k].obSig in signed;
    }
    assert CastByAll(signed, q, br.gen.value.block.header);
  }

  lemma GrowEvidence(cfg: Config, ob: Observer, b: Block, signed: set<Signature>)
    requires Evidence(cfg, ob, signed) && Certified(cfg, signed, b.header)
    requires b.header.height == |ob.chain| + 1 && b.header.prevHash == LastHash(ob.chain)
    ensures Evidence(cfg, Grown(ob, b), signed)
  {
    var chain := ob.chain + [b];
    forall i | 0 <= i < |chain| ensures chain[i].header.prevHash == LastHash(chain[..i]) {
      if i < |ob.chain| { assert chain[..i] == ob.chain[..i]; } else { assert chain[..i] == ob.chain; }
    }
  }

  lemma ConnectEvidence(cfg: Config, ob: Observer, b: Block, code: Code, signed: set<Signature>)
    requires Evidence(cfg, ob, signed) && Evidence(cfg, Grown(ob, b), signed)
    ensures Evidence(cfg, ConnectNext(cfg, ob, b, code), signed)
  {
  }

  lemma LandVoteEvidence(cfg: Config, env: Env, ob: Observer, from: Key, v: BlockVote, sig: Signature,
                         signed: set<Signature>)
    requires RoundInv(ob) && Evidence(cfg, ob, signed) && VoteLands(ob.round, v.header.height)
    requires BlockVoteCode(cfg, ob, from, v, sig) == Ok
    requires Deliverable(cfg, signed, BlockVoteMessage(v, sig))
    ensures Evidence(cfg, LandVote(cfg, env, ob, from, v).ob, signed)
  {
    var h := v.header.height;
    VoteMoves(ob, from, v);
    VoteEvidence(cfg, ob, from, v, sig, signed);
    var voted := WithBlockVote(ob, from, v);
    assert voted.round.blocks[h].gen.value.block.header == v.header && ValidHeader(cfg, ob.chain, v.header);
    if |voted.round.blocks[h].votes| >= Majority(cfg) {
      VotesCertify(cfg, voted.round.blocks[h], signed);
      var b := VotedBlock(env, voted);
      GrowEvidence(cfg, voted, b, signed);
      ConnectEvidence(cfg, voted, b, ConnectCode(cfg, env, voted, b), signed);
    }
  }

  lemma BlockVoteEvidence(cfg: Config, env: Env, ob: Observer, from: Key, v: BlockVote, sig: Signature,
                          signed: set<Signature>)
    requires RoundInv(ob) && Evidence(cfg, ob, signed)
    requires Deliverable(cfg, signed, BlockVoteMessage(v, sig))
    ensures Evidence(cfg, HandleBlockVote(cfg, env, ob, from, v, sig).ob, signed)
  {
    if BlockVoteCode(cfg, ob, from, v, sig) == Ok && VoteLands(ob.round, v.header.height) {
      LandVoteEvidence(cfg, env, ob, from, v, sig, signed);
    } else if VoteEarly(ob.round, v.header.height) {
      KeepVoteEvidence(cfg, env, ob, from, v, sig, signed);
    }
  }

  /** The header an event may sign: the one already voted on, or the one the event votes on. */
  ghost function Signable(a: Observer, b: Observer): Option<Header> {
    if Voted(a).Some? || a.round.target != b.round.target then Voted(a) else Voted(b)
  }

  ghost predicate Keeps(cfg: Config, a: Observer, st: Step, signed: set<Signature>) {
    && RoundInv(st.ob) && Evolves(a, st.ob) && Evidence(cfg, st.ob, signed)
    && Signs(st.outs, a.me, Signable(a, st.ob))
  }

  lemma RoundVoteKeeps(cfg: Config, env: Env, ob: Observer, from: Key, v: RoundVote, sig: Signature,
                       signed: set<Signature>)
    requires RoundInv(ob) && Evidence(cfg, ob, signed)
    ensures Keeps(cfg, ob, HandleRoundVote(cfg, env, ob, from, v, sig), signed)
  {
    var code := RoundVoteCode(cfg, ob, from, v, sig);
    RoundVoteSigns(cfg, env, ob, from, v, code);
    if code == Ok { RoundVoteMoves(cfg, ob, from, v); }
  }

  lemma AckKeeps(cfg: Config, env: Env, ob: Observer, from: Key, a: Ack, sig: Signature, signed: set<Signature>)
    requires RoundInv(ob) && Evidence(cfg, ob, signed)
    ensures Keeps(cfg, ob, HandleAck(cfg, env, ob, from, a, sig), signed)
  {
    var code := AckCode(cfg, ob, from, a, sig);
    AckSigns(cfg, env, ob, from, a, code);
    AckMoves(cfg, env, ob, from, a, sig, code);
    AckEvidence(cfg, env, ob, from, a, sig, code, signed);
  }

  lemma SetupKeeps(cfg: Config, ob: Observer, from: Key, a: Ack, sig: Signature, signed: set<Signature>)
    requires RoundInv(ob) && Evidence(cfg, ob, signed)
    ensures Keeps(cfg, ob, HandleSetup(cfg, ob, from, a, sig), signed)
  {
    SetupSigns(ob, from, a, SetupCode(cfg, ob, from, a, sig));
  }

  lemma BlockGenKeeps(cfg: Config, env: Env, ob: Observer, gen: BlockGen, signed: set<Signature>)
    requires RoundInv(ob) && Evidence(cfg, ob, signed)
    ensures Keeps(cfg, ob, HandleBlockGen(cfg, env, ob, gen), signed)
  {
    var code := BlockGenCode(cfg, env, ob, gen);
    BlockGenSigns(ob, gen, code);
    BlockGenMoves(ob, gen, code);
    BlockGenEvidence(cfg, ob, gen, code, signed);
  }

  lemma BlockVoteKeeps(cfg: Config, env: Env, ob: Observer, from: Key, v: BlockVote, sig: Signature,
                       signed: set<Signature>)
    requires RoundInv(ob) && ob.round.target == |ob.chain| + 1
    requires Evidence(cfg, ob, signed) && Deliverable(cfg, signed, BlockVoteMessage(v, sig))
    ensures Keeps(cfg, ob, HandleBlockVote(cfg, env, ob, from, v, sig), signed)
  {
    BlockVoteSigns(cfg, env, ob, from, v, sig);
    BlockVoteMoves(cfg, env, ob, from, v, sig);
    BlockVoteEvidence(cfg, env, ob, from, v, sig, signed);
  }

  lemma HandleKeeps(cfg: Config, env: Env, ob: Observer, from: Key, m: Message, signed: set<Signature>)
    requires RoundInv(ob) && ob.round.target == |ob.chain| + 1
    requires Evidence(cfg, ob, signed) && Deliverable(cfg, signed, m)
    ensures Keeps(cfg, ob, Handle(cfg, env, ob, from, m), signed)
  {
    match m
    case RoundVoteMessage(v, sig) => RoundVoteKeeps(cfg, env, ob, from, v, sig, signed);
    case AckMessage(a, sig) => AckKeeps(cfg, env, ob, from, a, sig, signed);
    case SetupMessage(a, sig) => SetupKeeps(cfg, ob, from, a, sig, signed);
    case BlockGenMessage(gen) => BlockGenKeeps(cfg, env, ob, gen, signed);
    case BlockVoteMessage(v, sig) => BlockVoteKeeps(cfg, env, ob, from, v, sig, signed);
    case BlockMessage(b) => BlockKeeps(cfg, ob, b, signed);
  }

  lemma BlockKeeps(cfg: Config, ob: Observer, b: Block, signed: set<Signature>)
    requires RoundInv(ob) && Evidence(cfg, ob, signed) && Deliverable(cfg, signed, BlockMessage(b))
    ensures Keeps(cfg, ob, HandleBlock(ob, b), signed)
  {
  }

  /** The signatures of a finished block certify its header. */
  lemma MajorityCertifies(cfg: Config, b: Block, signed: set<Signature>)
    requires SigsKnown(cfg, b.sigs, signed) && |b.sigs| > 0
    requires SignedByMajority(OfBlockSign(b.header, b.sigs[0]), b.sigs[1..], cfg.keys)
    ensures Certified(cfg, signed, b.header)
  {
    var sigs := b.sigs[1..];
    var q := Signers(sigs, |sigs|);
    SignersSize(sigs, |sigs|);
    forall k | k in q ensures Cast(signed, k, b.header) {
      var i :| 0 <= i < |sigs| && sigs[i].signer == k;
      assert b.sigs[i + 1] in signed;
    }
    assert CastByAll(signed, q, b.header);
  }

  lemma ConnectQueuedKeeps(cfg: Config, ob: Observer, signed: set<Signature>)
    requires RoundInv(ob) && Evidence(cfg, ob, signed)
    ensures Keeps(cfg, ob, ConnectQueued(cfg, ob), signed)
  {
    var h := |ob.chain| + 1;
    if h in ob.blockQ
       && ValidHeader(cfg, ob.chain, ob.blockQ[h].header) && ValidSignatures(cfg, ob.chain, ob.blockQ[h])
    {
      MajorityCertifies(cfg, ob.blockQ[h], signed);
      GrowEvidence(cfg, ob, ob.blockQ[h], signed);
    }
  }

  lemma RepeatKeeps(cfg: Config, env: Env, ob: Observer, signed: set<Signature>)
    requires RoundInv(ob) && Evidence(cfg, ob, signed)
    ensures Keeps(cfg, ob, Repeat(cfg, env, ob), signed)
  {
  }

  // ---- one header per height ----

  /** At height `h` the observer has signed at most one header, none above its current height, and
      at its current height only the one it has voted on. */
  ghost predicate OneHeader(h: nat, ob: Observer, signed: set<Signature>) {
    && (forall s :: s in signed && SignsAt(s, ob.me, h) ==>
          h <= ob.round.target && (h == ob.round.target ==> Voted(ob) == Some(s.payload.header)))
    && SignedOnce(h, ob.me, signed)
  }

  ghost predicate SignedOnce(h: nat, k: Key, signed: set<Signature>) {
    forall s, t :: s in signed && t in signed && SignsAt(s, k, h) && SignsAt(t, k, h) ==>
      s.payload.header == t.payload.header
  }

  ghost predicate SignsAt(s: Signature, k: Key, h: nat) {
    s.signer == k && s.payload.OfBlockSign? && s.payload.header.height == h
  }

  ghost predicate EvolvesAt(h: nat, a: Observer, b: Observer) {
    && a.me == b.me
    && a.round.target <= b.round.target
    && (a.round.target == b.round.target == h && Voted(a).Some? ==> Voted(b) == Voted(a))
  }

  ghost function AllMade(outs: set<Output>): set<Signature> {
    set o, s | o in outs && s in Made(o) :: s
  }

  lemma OneHeaderKept(h: nat, a: Observer, b: Observer, signed: set<Signature>)
    requires OneHeader(h, a, signed) && EvolvesAt(h, a, b)
    ensures OneHeader(h, b, signed)
  {
  }

  lemma OneHeaderSigned(h: nat, a: Observer, b: Observer, outs: set<Output>, signed: set<Signature>)
    requires OneHeader(h, a, signed) && RoundInv(a) && RoundInv(b) && Evolves(a, b)
    requires Signs(outs, a.me, Signable(a, b))
    ensures OneHeader(h, b, signed + AllMade(outs))
  {
    forall s | s in AllMade(outs)
      ensures s.signer == a.me && (s.payload.OfBlockSign? ==> Signable(a, b) == Some(s.payload.header))
    {
      var o :| o in outs && s in Made(o);
      assert SignsOnly(o, a.me, Signable(a, b));
    }
  }

  // ---- runs ----

  datatype World = World(obs: map<Key, Observer>, signed: set<Signature>)

  datatype Event =
    | Deliver(k: Key, env: Env, from: Key, m: Message)
    | VoteTimer(k: Key, env: Env)
    | BlockTimer(k: Key)
    | RestartOf(k: Key)

  ghost predicate Init(cfg: Config, w: World) {
    && w.obs.Keys == cfg.keys && w.signed == {}
    && forall k :: k in w.obs ==> w.obs[k] == Observer(k, [], NewVoteRound(1, cfg.maxBlocks), map[])
  }

  ghost predicate Legal(cfg: Config, w: World, e: Event) {
    e.k in w.obs && (e.Deliver? ==> Deliverable(cfg, w.signed, e.m))
  }

  ghost function Act(cfg: Config, ob: Observer, e: Event): Step {
    match e
    case Deliver(_, env, from, m) => Receive(cfg, env, ob, from, m)
    case VoteTimer(_, env) => Tick(cfg, env, ob)
    case BlockTimer(_) => ConnectQueued(cfg, ob)
    case RestartOf(_) => Step(Restart(cfg, ob), {}, Ok)
  }

  ghost function Next(cfg: Config, w: World, e: Event): World
    requires e.k in w.obs
  {
    var st := Act(cfg, w.obs[e.k], e);
    World(w.obs[e.k := st.ob], w.signed + AllMade(st.outs))
  }

  /** The observer drops its round at height `h` although it has signed a header there: by the
      failure reset of the vote timer, or by a restart. */
  ghost predicate Forgets(cfg: Config, h: nat, ob: Observer, e: Event) {
    match e
    case VoteTimer(_, env) =>
      var synced := Sync(cfg, ob).ob;
      FailureReset(cfg, env, ob) && synced.round.target == h && Voted(synced).Some?
    case RestartOf(_) => ob.round.target == h == |ob.chain| + 1 && Voted(ob).Some?
    case _ => false
  }

  ghost predicate ObserverInv(cfg: Config, h: nat, k: Key, ob: Observer, signed: set<Signature>) {
    ob.me == k && RoundInv(ob) && Evidence(cfg, ob, signed) && OneHeader(h, ob, signed)
  }

  ghost predicate WorldInv(cfg: Config, h: nat, w: World) {
    w.obs.Keys == cfg.keys && forall k :: k in w.obs ==> ObserverInv(cfg, h, k, w.obs[k], w.signed)
  }

  /** What `ActKeeps` shows of the acting observer. */
  ghost predicate ActsWell(cfg: Config, h: nat, ob: Observer, st: Step, signed: set<Signature>) {
    && ObserverInv(cfg, h, ob.me, st.ob, signed + AllMade(st.outs))
    && (forall s :: s in AllMade(st.outs) ==> s.signer == ob.me)
  }

  lemma KeptActsWell(cfg: Config, h: nat, a: Observer, outs: set<Output>, st: Step, signed: set<Signature>)
    requires ObserverInv(cfg, h, a.me, a, signed) && Keeps(cfg, a, st, signed)
    requires forall o :: o in outs ==> Made(o) == {}
    ensures ActsWell(cfg, h, a, Step(st.ob, outs + st.outs, st.code), signed)
  {
    var all := AllMade(outs + st.outs);
    assert all == AllMade(st.outs);
    forall s | s in all ensures s.signer == a.me {
      var o :| o in st.outs && s in Made(o);
      assert SignsOnly(o, a.me, Signable(a, st.ob));
    }
    OneHeaderSigned(h, a, st.ob, st.outs, signed);
    EvidenceGrows(cfg, st.ob, signed, signed + all);
  }

  lemma ReceiveActsWell(cfg: Config, h: nat, env: Env, ob: Observer, from: Key, m: Message, signed: set<Signature>)
    requires ObserverInv(cfg, h, ob.me, ob, signed) && Deliverable(cfg, signed, m)
    ensures ActsWell(cfg, h, ob, Receive(cfg, env, ob, from, m), signed)
  {
    var s := Sync(cfg, ob);
    SyncKeeps(cfg, ob);
    SyncEvidence(cfg, ob, signed);
    OneHeaderKept(h, ob, s.ob, signed);
    if s.code == Ok {
      HandleKeeps(cfg, env, s.ob, from, m, signed);
      KeptActsWell(cfg, h, s.ob, s.outs, Handle(cfg, env, s.ob, from, m), signed);
    } else {
      assert AllMade(s.outs) == {};
    }
  }

  lemma ResetKeeps(cfg: Config, h: nat, ob: Observer, signed: set<Signature>)
    requires ObserverInv(cfg, h, ob.me, ob, signed) && ob.round.target <= |ob.chain| + 1
    requires ob.round.target == h == |ob.chain| + 1 ==> Voted(ob).None?
    ensures ObserverInv(cfg, h, ob.me, ResetRound(cfg, ob), signed)
  {
    OneHeaderKept(h, ob, ResetRound(cfg, ob), signed);
  }

  lemma TickActsWell(cfg: Config, h: nat, env: Env, ob: Observer, signed: set<Signature>, e: Event)
    requires ObserverInv(cfg, h, ob.me, ob, signed) && e == VoteTimer(ob.me, env) && !Forgets(cfg, h, ob, e)
    ensures ActsWell(cfg, h, ob, Tick(cfg, env, ob), signed)
  {
    var s := Sync(cfg, ob);
    SyncKeeps(cfg, ob);
    SyncEvidence(cfg, ob, signed);
    OneHeaderKept(h, ob, s.ob, signed);
    if s.code != Ok || env.formulators == {} {
      assert AllMade(s.outs) == {};
    } else {
      var counted := s.ob.(round := s.ob.round.(failCount := s.ob.round.failCount + 1));
      OneHeaderKept(h, s.ob, counted, signed);
      var blamed := if counted.round.minAck.Some? then {counted.round.minAck.value.formulator} else {};
      var now := if counted.round.failCount > MAX_VOTE_FAIL then ResetRound(cfg, counted) else counted;
      var env' := if counted.round.failCount > MAX_VOTE_FAIL then env.(formulators := env.formulators - blamed)
        else env;
      if counted.round.failCount > MAX_VOTE_FAIL { ResetKeeps(cfg, h, counted, signed); }
      RepeatKeeps(cfg, env', now, signed);
      KeptActsWell(cfg, h, now, s.outs, Repeat(cfg, env', now), signed);
    }
  }

  lemma ActKeeps(cfg: Config, h: nat, ob: Observer, e: Event, signed: set<Signature>)
    requires ObserverInv(cfg, h, ob.me, ob, signed) && ob.me == e.k && !Forgets(cfg, h, ob, e)
    requires e.Deliver? ==> Deliverable(cfg, signed, e.m)
    ensures ActsWell(cfg, h, ob, Act(cfg, ob, e), signed)
  {
    match e {
      case Deliver(_, env, from, m) => ReceiveActsWell(cfg, h, env, ob, from, m, signed);
      case VoteTimer(_, env) => TickActsWell(cfg, h, env, ob, signed, e);
      case BlockTimer(_) =>
        var st := ConnectQueued(cfg, ob);
        ConnectQueuedKeeps(cfg, ob, signed);
        KeptActsWell(cfg, h, ob, {}, st, signed);
        assert Step(st.ob, {} + st.outs, st.code) == st;
      case RestartOf(_) =>
        RestartActsWell(cfg, h, ob, signed);
    }
  }

  lemma RestartActsWell(cfg: Config, h: nat, ob: Observer, signed: set<Signature>)
    requires ObserverInv(cfg, h, ob.me, ob, signed) && !Forgets(cfg, h, ob, RestartOf(ob.me))
    ensures ActsWell(cfg, h, ob, Step(Restart(cfg, ob), {}, Ok), signed)
  {
    ResetKeeps(cfg, h, ob, signed);
    assert AllMade({}) == {} && signed + {} == signed;
  }

  lemma OthersKeep(cfg: Config, h: nat, k: Key, ob: Observer, signed: set<Signature>, more: set<Signature>)
    requires ObserverInv(cfg, h, k, ob, signed) && signed <= more
    requires forall s :: s in more && s !in signed ==> s.signer != k
    ensures ObserverInv(cfg, h, k, ob, more)
  {
    EvidenceGrows(cfg, ob, signed, more);
  }

  lemma StepKeeps(cfg: Config, h: nat, w: World, e: Event)
    requires WorldInv(cfg, h, w) && Legal(cfg, w, e) && !Forgets(cfg, h, w.obs[e.k], e)
    ensures WorldInv(cfg, h, Next(cfg, w, e))
  {
    ActKeeps(cfg, h, w.obs[e.k], e, w.signed);
    forall k | k in w.obs && k != e.k ensures ObserverInv(cfg, h, k, w.obs[k], Next(cfg, w, e).signed) {
      OthersKeep(cfg, h, k, w.obs[k], w.signed, Next(cfg, w, e).signed);
    }
  }

  /** A run is a start and the events that follow one another. */
  ghost function After(cfg: Config, w: World, es: seq<Event>): World {
    if es == [] then w
    else
      var v := After(cfg, w, es[..|es| - 1]);
      var e := es[|es| - 1];
      if e.k in v.obs then Next(cfg, v, e) else v
  }

  ghost predicate LegalRun(cfg: Config, w: World, es: seq<Event>) {
    forall i :: 0 <= i < |es| ==> Legal(cfg, After(cfg, w, es[..i]), es[i])
  }

  lemma RunGrows(cfg: Config, w: World, es: seq<Event>, e: Event)
    requires LegalRun(cfg, w, es) && Legal(cfg, After(cfg, w, es), e)
    ensures After(cfg, w, es + [e]) == Next(cfg, After(cfg, w, es), e) && LegalRun(cfg, w, es + [e])
  {
    var more := es + [e];
    assert more[..|es|] == es;
    forall i | 0 <= i < |more| ensures Legal(cfg, After(cfg, w, more[..i]), more[i]) {
      if i < |es| { assert more[..i] == es[..i]; }
    }
  }

  /** Nobody drops a round at height `h` after signing there. */
  ghost predicate Remembers(cfg: Config, h: nat, w: World, es: seq<Event>) {
    forall i :: 0 <= i < |es| && es[i].k in After(cfg, w, es[..i]).obs ==>
      !Forgets(cfg, h, After(cfg, w, es[..i]).obs[es[i].k], es[i])
  }

  lemma {:induction false} RunKeeps(cfg: Config, h: nat, w: World, es: seq<Event>)
    requires Init(cfg, w) && LegalRun(cfg, w, es) && Remembers(cfg, h, w, es)
    ensures WorldInv(cfg, h, After(cfg, w, es))
  {
    if es == [] {
    } else {
      var front := es[..|es| - 1];
      assert forall i :: 0 <= i < |front| ==> front[..i] == es[..i] && front[i] == es[i];
      RunKeeps(cfg, h, w, front);
      assert Legal(cfg, After(cfg, w, front), es[|es| - 1]);
      StepKeeps(cfg, h, After(cfg, w, front), es[|es| - 1]);
    }
  }

  lemma QuorumsMeet(keys: set<Key>, p: set<Key>, q: set<Key>) returns (k: Key)
    requires p <= keys && q <= keys && |p| >= |keys| / 2 + 1 && |q| >= |keys| / 2 + 1
    ensures k in p && k in q
  {
    if p * q == {} {
      assert |p + q| == |p| + |q|;
      SubsetSize(p + q, keys);
      assert false;
    }
    k :| k in p * q;
  }

  lemma {:induction false} SubsetSize(a: set<Key>, b: set<Key>)
    requires a <= b
    ensures |a| <= |b|
  {
    if a != {} {
      var x :| x in a;
      SubsetSize(a - {x}, b - {x});
    }
  }

  lemma CastUnique(h: nat, k: Key, signed: set<Signature>, a: Header, b: Header)
    requires SignedOnce(h, k, signed) && a.height == h && b.height == h
    requires Cast(signed, k, a) && Cast(signed, k, b)
    ensures a == b
  {
  }

  /** When every observer has signed at most one header of a height, two certified headers of that
      height are the same header. */
  lemma CertifiedUnique(cfg: Config, h: nat, signed: set<Signature>, a: Header, b: Header)
    requires forall k :: k in cfg.keys ==> SignedOnce(h, k, signed)
    requires a.height == h && b.height == h
    requires Certified(cfg, signed, a) && Certified(cfg, signed, b)
    ensures a == b
  {
    var p :| p <= cfg.keys && |p| >= Majority(cfg) && CastByAll(signed, p, a);
    var q :| q <= cfg.keys && |q| >= Majority(cfg) && CastByAll(signed, q, b);
    var k := QuorumsMeet(cfg.keys, p, q);
    CastUnique(h, k, signed, a, b);
  }

  ghost predicate SameHeaders(c: seq<Block>, d: seq<Block>, n: nat)
    requires n <= |c| && n <= |d|
  {
    forall j :: 0 <= j < n ==> c[j].header == d[j].header
  }

  lemma LinkedBack(c: seq<Block>, i: nat)
    requires Linked(c) && 0 < i < |c|
    ensures c[i].header.prevHash == HashOf(c[i - 1].header)
  {
    assert c[..i][i - 1] == c[i - 1];
  }

  /** Headers are chained by their hashes, so equal headers have equal pasts. */
  lemma {:induction false} SamePast(c: seq<Block>, d: seq<Block>, n: nat)
    requires Linked(c) && Linked(d) && 0 < n <= |c| && n <= |d| && c[n - 1].header == d[n - 1].header
    ensures SameHeaders(c, d, n)
  {
    if n > 1 {
      LinkedBack(c, n - 1);
      LinkedBack(d, n - 1);
      SamePast(c, d, n - 1);
    }
  }

  ghost predicate AgreeUpTo(h: nat, v: World, a: Key, b: Key)
    requires a in v.obs && b in v.obs
  {
    var c, d := v.obs[a].chain, v.obs[b].chain;
    h <= |c| && h <= |d| ==> SameHeaders(c, d, h)
  }

  lemma WorldAgrees(cfg: Config, h: nat, v: World, a: Key, b: Key)
    requires WorldInv(cfg, h, v) && a in v.obs && b in v.obs && h > 0
    ensures AgreeUpTo(h, v, a, b)
  {
    var c, d := v.obs[a].chain, v.obs[b].chain;
    assert ObserverInv(cfg, h, a, v.obs[a], v.signed) && ObserverInv(cfg, h, b, v.obs[b], v.signed);
    if h <= |c| && h <= |d| {
      forall k | k in cfg.keys ensures SignedOnce(h, k, v.signed) {
        assert ObserverInv(cfg, h, k, v.obs[k], v.signed);
      }
      assert c[h - 1].header.height == h && d[h - 1].header.height == h;
      CertifiedUnique(cfg, h, v.signed, c[h - 1].header, d[h - 1].header);
      SamePast(c, d, h);
    }
  }

  /** In every run in which nobody drops a round at height `h` after signing there, any two
      observers that have connected a block at `h` have connected the same headers up to `h`. */
  lemma AgreementAt(cfg: Config, h: nat, w: World, es: seq<Event>, a: Key, b: Key)
    requires Init(cfg, w) && LegalRun(cfg, w, es) && Remembers(cfg, h, w, es)
    requires a in cfg.keys && b in cfg.keys && h > 0
    ensures a in After(cfg, w, es).obs && b in After(cfg, w, es).obs
    ensures AgreeUpTo(h, After(cfg, w, es), a, b)
  {
    RunKeeps(cfg, h, w, es);
    WorldAgrees(cfg, h, After(cfg, w, es), a, b);
  }
}
