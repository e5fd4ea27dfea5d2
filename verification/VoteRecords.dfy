/** What an observer has on record of a round: only what was signed by its sender for this height and this chain. */
module VoteRecords {
  import opened Options
  import opened ObserverTypes
  import opened ObserverRound
  import opened Agreement

  // ---- what is recorded ----

  /** The vote names the chain, its last block, and the formulator that the rank table puts at the timeout count. */
  predicate Names(cfg: Config, chain: seq<Block>, chainID: nat, lastHash: Hash, timeout: nat, formulator: Address,
                  key: Key) {
    && chainID == cfg.chainID && lastHash == LastHash(chain) && timeout < |cfg.ranks(chain)|
    && formulator == cfg.ranks(chain)[timeout].address && key == cfg.ranks(chain)[timeout].publicHash
  }

  predicate SignedBy(cfg: Config, from: Key, payload: Payload, sig: Signature) {
    sig.payload == payload && sig.signer == from && from in cfg.keys
  }

  /** A round vote counts: signed by its sender, for this height and chain, in the right stage, and newer than the one
      on record. */
  predicate VoteCounts(cfg: Config, ob: Observer, from: Key, v: RoundVote, sig: Signature) {
    && SignedBy(cfg, from, OfRoundVote(v), sig) && v.target == ob.round.target && ob.round.state == RoundVoting
    && Names(cfg, ob.chain, v.chainID, v.lastHash, v.timeout, v.formulator, v.formulatorKey)
    && (from in ob.round.roundVotes ==> v.timestamp > ob.round.roundVotes[from].timestamp)
  }

  predicate AckCounts(cfg: Config, ob: Observer, from: Key, a: Ack, sig: Signature) {
    && SignedBy(cfg, from, OfAck(a), sig) && a.target == ob.round.target && ob.round.state == AckVoting
    && Names(cfg, ob.chain, a.chainID, a.lastHash, a.timeout, a.formulator, a.formulatorKey)
    && (from in ob.round.acks ==> a.timestamp > ob.round.acks[from].timestamp)
  }

  /** A block vote counts: signed twice by its sender, for the block that this observer has voted for, by the chosen
      formulator, and the first of its sender. */
  predicate BlockVoteCounts(cfg: Config, ob: Observer, from: Key, v: BlockVote, sig: Signature) {
    var r, h := ob.round, v.header;
    && SignedBy(cfg, from, OfBlockVote(v), sig) && SignedBy(cfg, from, OfBlockSign(h, v.genSig), v.obSig)
    && r.state == BlockVoting && h.height == r.target && h.height in r.blocks && r.blocks[h.height].gen.Some?
    && h == r.blocks[h.height].gen.value.block.header && from !in r.blocks[h.height].votes
    && ValidHeader(cfg, ob.chain, h) && r.minAck.Some?
    && h.timeoutCount.Some? && h.timeoutCount.value < |cfg.ranks(ob.chain)|
    && h.generator == cfg.ranks(ob.chain)[h.timeoutCount.value].address == r.minAck.value.formulator
    && v.genSig.payload == OfHeader(h)
    && v.genSig.signer == cfg.ranks(ob.chain)[h.timeoutCount.value].publicHash == r.minAck.value.formulatorKey
  }

  /** Exactly the round votes that count are recorded. */
  lemma RoundVoteIff(cfg: Config, env: Env, ob: Observer, from: Key, v: RoundVote, sig: Signature, b: Observer)
    requires b == HandleRoundVote(cfg, env, ob, from, v, sig).ob
    ensures b.round.roundVotes ==
      if VoteCounts(cfg, ob, from, v, sig) then ob.round.roundVotes[from := v] else ob.round.roundVotes
    ensures VoteCounts(cfg, ob, from, v, sig) ==>
      (b.round.state == AckVoting <==> |b.round.roundVotes| >= |cfg.keys| / 2 + 2)
    ensures !VoteCounts(cfg, ob, from, v, sig) ==> b == ob
  {
  }

  /** Exactly the acknowledgements that count are recorded; one that comes before the round votes are in waits. */
  lemma AckIff(cfg: Config, env: Env, ob: Observer, from: Key, a: Ack, sig: Signature, b: Observer)
    requires b == HandleAck(cfg, env, ob, from, a, sig).ob
    ensures b.round.acks == if AckCounts(cfg, ob, from, a, sig) then ob.round.acks[from := a] else ob.round.acks
    ensures !AckCounts(cfg, ob, from, a, sig) && ob.round.state != RoundVoting ==> b == ob
  {
  }

  lemma BlockVoteOkIff(cfg: Config, ob: Observer, from: Key, v: BlockVote, sig: Signature)
    ensures BlockVoteCode(cfg, ob, from, v, sig) == Ok <==> BlockVoteCounts(cfg, ob, from, v, sig)
  {
  }

  /** A block vote that does not count changes neither the chain nor any votes on record. */
  lemma BlockVoteRefused(cfg: Config, env: Env, ob: Observer, from: Key, v: BlockVote, sig: Signature, b: Observer)
    requires b == HandleBlockVote(cfg, env, ob, from, v, sig).ob && !BlockVoteCounts(cfg, ob, from, v, sig)
    ensures b.chain == ob.chain && b.round.blocks.Keys == ob.round.blocks.Keys
    ensures forall j :: j in ob.round.blocks ==> b.round.blocks[j].votes == ob.round.blocks[j].votes
  {
    BlockVoteOkIff(cfg, ob, from, v, sig);
  }

  /** One that counts is recorded; with it a majority connects the block that the votes are for, with their signatures,
      if and only if it can be saved, and fewer do not. */
  lemma BlockVoteIff(cfg: Config, env: Env, ob: Observer, from: Key, v: BlockVote, sig: Signature, b: Observer,
                     br: BlockRound)
    requires b == HandleBlockVote(cfg, env, ob, from, v, sig).ob && BlockVoteCounts(cfg, ob, from, v, sig)
    requires br == ob.round.blocks[ob.round.target].(votes := ob.round.blocks[ob.round.target].votes[from := v])
    ensures |br.votes| < Majority(cfg) ==> b == WithBlock(ob, ob.round.target, br)
    ensures |br.votes| >= Majority(cfg) ==>
      var block := Assemble(br, env.order);
      b.chain == (if cfg.connects(ob.chain, block) then ob.chain + [block] else ob.chain) && block.header == v.header
  {
    BlockVoteOkIff(cfg, ob, from, v, sig);
    assert WithBlockVote(ob, from, v) == WithBlock(ob, ob.round.target, br);
  }

  // ---- what follows ----

  /** Of votes that differ in their senders one is least. */
  lemma {:induction false} LeastExists(votes: map<Key, RoundVote>) returns (k: Key)
    requires votes != map[]
    ensures IsMinVote(votes, k)
    decreases |votes|
  {
    k :| k in votes;
    var rest := votes - {k};
    if rest == map[] {
      assert forall j :: j in votes ==> j == k || j in rest;
    } else {
      assert rest.Keys < votes.Keys && |rest.Keys| < |votes.Keys| by { SmallerKeys(votes.Keys, k, rest.Keys); }
      var j := LeastExists(rest);
      assert VoteLess(votes, k, j) || VoteLess(votes, j, k);
      forall i | i in rest && i != j ensures VoteLess(votes, j, i) { assert VoteLess(rest, j, i); }
      assert forall i :: i in votes ==> i == k || i in rest;
      if !VoteLess(votes, k, j) { k := j; }
    }
  }

  lemma SmallerKeys(a: set<Key>, k: Key, b: set<Key>)
    requires k in a && b == a - {k}
    ensures |b| < |a|
  {
  }

  /** The round vote that completes the quorum makes the observer acknowledge the least vote on record: least by timeout
      count and then by sender, with its height, its timeout count and its formulator. */
  lemma LeastIsAcknowledged(cfg: Config, env: Env, ob: Observer, from: Key, v: RoundVote, sig: Signature, st: Step)
      returns (k: Key, a: Ack)
    requires st == HandleRoundVote(cfg, env, ob, from, v, sig) && VoteCounts(cfg, ob, from, v, sig)
    requires |ob.round.roundVotes[from := v]| >= |cfg.keys| / 2 + 2
    ensures st.ob.round.state == AckVoting && IsMinVote(ob.round.roundVotes[from := v], k)
    ensures Broadcast(AckMessage(a, Signature(ob.me, OfAck(a), 0))) in st.outs && a.chosen == k
    ensures var w := ob.round.roundVotes[from := v][k];
      && a.chainID == w.chainID && a.lastHash == w.lastHash && a.target == w.target && a.timeout == w.timeout
      && a.formulator == w.formulator && a.formulatorKey == w.formulatorKey
  {
    RoundVoteIff(cfg, env, ob, from, v, sig, st.ob);
    var votes := ob.round.roundVotes[from := v];
    var i := LeastExists(votes);
    k := MinVote(votes);
    assert IsMinVote(votes, k);
    a := AckFor(env, CloseRoundVote(WithRoundVote(ob, from, v)), votes[k], k).ack;
  }

  /** After a block has been connected by votes, the round goes on with the next height for the same formulator, if it
      is on top of the new rank table and its turn covers that height; otherwise a new round starts there. */
  lemma RoundAfterConnect(cfg: Config, env: Env, ob: Observer, b: Block, d: Observer)
    requires ob.round.minAck.Some? && ConnectCode(cfg, env, ob, b) == Ok && d == ConnectNext(cfg, ob, b, Ok)
    requires ob.round.target == |ob.chain| + 1
    ensures d.chain == ob.chain + [b] && d.round.target == |d.chain| + 1 && |cfg.ranks(d.chain)| > 0
    ensures d.round.state == BlockWaiting <==>
      d.round.target in ob.round.blocks && cfg.ranks(d.chain)[0].address == ob.round.minAck.value.formulator
    ensures d.round.state == BlockWaiting ==> d.round.minAck == ob.round.minAck && d.round.blocks == ob.round.blocks
    ensures d.round.state != BlockWaiting ==> d.round == NewVoteRound(|d.chain| + 1, cfg.maxBlocks)
  {
  }

  /** Until the failures are too many, the vote timer repeats the vote of an observer that has voted. */
  lemma TimerRepeats(cfg: Config, env: Env, ob: Observer, st: Step)
    requires RoundInv(ob) && ob.round.target == |ob.chain| + 1 && st == Tick(cfg, env, ob) && env.formulators != {}
    requires ob.round.failCount < MAX_VOTE_FAIL && ob.round.state == BlockVoting
    ensures Broadcast(SignedVote(ob.me, ob.round.blocks[ob.round.target].gen.value, false)) in st.outs
  {
  }

  /** The first formulator of the rank table that is connected. */
  predicate FirstConnected(cfg: Config, chain: seq<Block>, formulators: set<Address>, t: nat) {
    && t < |cfg.ranks(chain)| && cfg.ranks(chain)[t].address in formulators
    && forall i :: 0 <= i < t ==> cfg.ranks(chain)[i].address !in formulators
  }

  /** One that collects round votes names the first connected formulator, with its place as the timeout count. */
  lemma TimerVotes(cfg: Config, env: Env, ob: Observer, st: Step, t: nat) returns (v: RoundVote)
    requires RoundInv(ob) && ob.round.target == |ob.chain| + 1 && st == Tick(cfg, env, ob)
    requires ob.round.failCount < MAX_VOTE_FAIL && ob.round.state == RoundVoting
    requires FirstConnected(cfg, ob.chain, env.formulators, t)
    ensures Broadcast(RoundVoteMessage(v, Signature(ob.me, OfRoundVote(v), 0))) in st.outs
    ensures v.timeout == t && v.target == |ob.chain| + 1
    ensures Names(cfg, ob.chain, v.chainID, v.lastHash, v.timeout, v.formulator, v.formulatorKey)
  {
    var counted, top := ob.(round := ob.round.(failCount := ob.round.failCount + 1)), (cfg.ranks(ob.chain)[t], t);
    assert FirstIn(cfg.ranks(ob.chain), env.formulators, 0) == t;
    assert TopRankInMap(cfg, ob.chain, env.formulators) == Some(top);
    v := RoundVoteFor(cfg, env, counted, top, false).vote;
  }

  // ---- over every run ----

  ghost predicate HasMade(signed: set<Signature>, k: Key, p: Payload) {
    exists s :: s in signed && s.signer == k && s.payload == p
  }

  ghost predicate VotesMade(cfg: Config, r: Round, signed: set<Signature>) {
    && (forall k :: k in r.roundVotes ==> k in cfg.keys && HasMade(signed, k, OfRoundVote(r.roundVotes[k])))
    && forall k :: k in r.acks ==> k in cfg.keys && HasMade(signed, k, OfAck(r.acks[k]))
  }

  /** While votes are collected, all on record are for this height and chain. */
  ghost predicate VotesFit(cfg: Config, ob: Observer) {
    var r := ob.round;
    r.target == |ob.chain| + 1 && (r.state == RoundVoting || r.state == AckVoting) ==>
      && (forall k :: k in r.roundVotes ==> var v := r.roundVotes[k];
            v.target == r.target
            && Names(cfg, ob.chain, v.chainID, v.lastHash, v.timeout, v.formulator, v.formulatorKey))
      && forall k :: k in r.acks ==> var a := r.acks[k];
           a.target == r.target
           && Names(cfg, ob.chain, a.chainID, a.lastHash, a.timeout, a.formulator, a.formulatorKey)
  }

  ghost predicate Ranked(cfg: Config, chain: seq<Block>, formulator: Address) {
    exists t :: 0 <= t < |cfg.ranks(chain)| && cfg.ranks(chain)[t].address == formulator
  }

  /** The formulator whose block is waited for is in the rank table. */
  ghost predicate ChoiceFits(cfg: Config, ob: Observer) {
    var r := ob.round;
    r.target == |ob.chain| + 1 && (r.state == BlockWaiting || r.state == BlockVoting) ==>
      r.minAck.Some? && Ranked(cfg, ob.chain, r.minAck.value.formulator)
  }

  ghost predicate Recorded(cfg: Config, ob: Observer, signed: set<Signature>) {
    RoundInv(ob) && VotesMade(cfg, ob.round, signed) && VotesFit(cfg, ob) && ChoiceFits(cfg, ob)
  }

  /** The records of `b` are those of `a`, or none, and nothing new is waited for. */
  ghost predicate SameRecords(a: Observer, b: Observer) {
    && a.round.roundVotes == b.round.roundVotes && a.round.acks == b.round.acks && a.round.minAck == b.round.minAck
    && a.round.state == b.round.state && a.round.target == b.round.target
  }

  lemma SameKept(cfg: Config, a: Observer, b: Observer, signed: set<Signature>)
    requires Recorded(cfg, a, signed) && RoundInv(b) && SameRecords(a, b)
    requires b.chain == a.chain || (a.round.target == |a.chain| + 1 && |b.chain| > |a.chain|)
      || (a.round.target <= |a.chain| < |b.chain|)
    ensures Recorded(cfg, b, signed)
  {
  }

  lemma MoreSigned(cfg: Config, ob: Observer, signed: set<Signature>, more: set<Signature>)
    requires Recorded(cfg, ob, signed) && signed <= more
    ensures Recorded(cfg, ob, more)
  {
    forall k | k in ob.round.roundVotes ensures HasMade(more, k, OfRoundVote(ob.round.roundVotes[k])) {
      assert HasMade(signed, k, OfRoundVote(ob.round.roundVotes[k]));
    }
    forall k | k in ob.round.acks ensures HasMade(more, k, OfAck(ob.round.acks[k])) {
      assert HasMade(signed, k, OfAck(ob.round.acks[k]));
    }
  }

  lemma ResetRecorded(cfg: Config, ob: Observer, signed: set<Signature>)
    ensures Recorded(cfg, ResetRound(cfg, ob), signed)
  {
  }

  lemma GoesOnRanked(cfg: Config, ob: Observer, h: nat)
    requires GoesOn(cfg, ob, h)
    ensures Ranked(cfg, ob.chain, ob.round.minAck.value.formulator)
  {
    assert cfg.ranks(ob.chain)[0].address == ob.round.minAck.value.formulator;
  }

  lemma SyncRecorded(cfg: Config, ob: Observer, signed: set<Signature>)
    requires Recorded(cfg, ob, signed)
    ensures Recorded(cfg, Sync(cfg, ob).ob, signed)
  {
    SyncKeeps(cfg, ob);
    var h := |ob.chain| + 1;
    if ob.round.target < h && TopRank(cfg, ob.chain, 0).Some? {
      if GoesOn(cfg, ob, h) { GoesOnRanked(cfg, ob, h); } else { ResetRecorded(cfg, ob, signed); }
    }
  }

  lemma VoteAdded(cfg: Config, ob: Observer, from: Key, v: RoundVote, sig: Signature, signed: set<Signature>)
    requires Recorded(cfg, ob, signed) && VoteCounts(cfg, ob, from, v, sig)
    requires Deliverable(cfg, signed, RoundVoteMessage(v, sig))
    ensures Recorded(cfg, WithRoundVote(ob, from, v), signed)
  {
    SameGensMoves(ob, WithRoundVote(ob, from, v));
    assert sig in Carried(RoundVoteMessage(v, sig));
    assert HasMade(signed, from, OfRoundVote(v));
  }

  lemma CloseRecorded(cfg: Config, ob: Observer, signed: set<Signature>)
    requires Recorded(cfg, ob, signed) && ob.round.state == RoundVoting
    ensures Recorded(cfg, CloseRoundVote(ob), signed)
  {
  }

  lemma VoteRecorded(cfg: Config, env: Env, ob: Observer, from: Key, v: RoundVote, sig: Signature,
                     signed: set<Signature>)
    requires Recorded(cfg, ob, signed) && Deliverable(cfg, signed, RoundVoteMessage(v, sig))
    ensures Recorded(cfg, HandleRoundVote(cfg, env, ob, from, v, sig).ob, signed)
  {
    RoundVoteIff(cfg, env, ob, from, v, sig, HandleRoundVote(cfg, env, ob, from, v, sig).ob);
    if VoteCounts(cfg, ob, from, v, sig) {
      VoteAdded(cfg, ob, from, v, sig, signed);
      CloseRecorded(cfg, WithRoundVote(ob, from, v), signed);
    }
  }

  lemma {:induction false} ChosenIsOne(acks: map<Key, Ack>, order: seq<Key>, q: nat, i: nat, a: Ack)
    requires ChooseAck(acks, order, q, i) == Some(a)
    ensures exists k :: k in acks && acks[k] == a
    decreases |order| - i
  {
    if !StopsAt(acks, order, q, i) { ChosenIsOne(acks, order, q, i + 1, a); }
  }

  lemma ChoiceRecorded(cfg: Config, env: Env, ob: Observer, signed: set<Signature>, b: Observer)
    requires Recorded(cfg, ob, signed) && ob.round.state == AckVoting && b == SettleAck(cfg, env, ob)
    ensures Recorded(cfg, b, signed)
  {
    var c := AckChoice(cfg, env, ob);
    if c.Some? {
      CloseAckMoves(cfg, ob, c.value);
      ChosenIsOne(ob.round.acks, env.order, Majority(cfg), 0, c.value);
      var k :| k in ob.round.acks && ob.round.acks[k] == c.value;
      if ob.round.target == |ob.chain| + 1 {
        assert cfg.ranks(ob.chain)[c.value.timeout].address == c.value.formulator;
      }
    }
  }

  lemma AckRecorded(cfg: Config, env: Env, ob: Observer, from: Key, a: Ack, sig: Signature, signed: set<Signature>)
    requires Recorded(cfg, ob, signed) && Deliverable(cfg, signed, AckMessage(a, sig))
    ensures Recorded(cfg, HandleAck(cfg, env, ob, from, a, sig).ob, signed)
  {
    var b, code := HandleAck(cfg, env, ob, from, a, sig).ob, AckCode(cfg, ob, from, a, sig);
    AckMoves(cfg, env, ob, from, a, sig, code);
    if code == Ok {
      var acked := WithAck(ob, from, a);
      SameGensMoves(ob, acked);
      assert sig in Carried(AckMessage(a, sig));
      assert HasMade(signed, from, OfAck(a));
      ChoiceRecorded(cfg, env, acked, signed, b);
    } else {
      SameKept(cfg, ob, b, signed);
    }
  }

  lemma GenRecorded(cfg: Config, env: Env, ob: Observer, gen: BlockGen, signed: set<Signature>)
    requires Recorded(cfg, ob, signed)
    ensures Recorded(cfg, HandleBlockGen(cfg, env, ob, gen).ob, signed)
  {
    BlockGenMoves(ob, gen, BlockGenCode(cfg, env, ob, gen));
  }

  lemma ConnectRecorded(cfg: Config, env: Env, ob: Observer, signed: set<Signature>)
    requires Recorded(cfg, ob, signed) && VoteLands(ob.round, ob.round.target) && ob.round.target == |ob.chain| + 1
    ensures Recorded(cfg, AfterBlockVote(cfg, env, ob).ob, signed)
  {
    AfterBlockVoteMoves(cfg, env, ob);
    var grown := Grown(ob, VotedBlock(env, ob));
    assert RoundInv(grown);
    SameKept(cfg, ob, grown, signed);
    if GoesOn(cfg, grown, ob.round.target + 1) { GoesOnRanked(cfg, grown, ob.round.target + 1); }
    ResetRecorded(cfg, grown, signed);
  }

  lemma BlockVoteRecorded(cfg: Config, env: Env, ob: Observer, from: Key, v: BlockVote, sig: Signature,
                          signed: set<Signature>)
    requires Recorded(cfg, ob, signed) && ob.round.target == |ob.chain| + 1
    ensures Recorded(cfg, HandleBlockVote(cfg, env, ob, from, v, sig).ob, signed)
  {
    BlockVoteMoves(cfg, env, ob, from, v, sig);
    var b := HandleBlockVote(cfg, env, ob, from, v, sig).ob;
    if BlockVoteCode(cfg, ob, from, v, sig) == Ok && VoteLands(ob.round, v.header.height) {
      var voted := WithBlockVote(ob, from, v);
      VoteMoves(ob, from, v);
      SameKept(cfg, ob, voted, signed);
      ConnectRecorded(cfg, env, voted, signed);
    } else {
      SameKept(cfg, ob, b, signed);
    }
  }

  lemma HandleRecorded(cfg: Config, env: Env, ob: Observer, from: Key, m: Message, signed: set<Signature>)
    requires Recorded(cfg, ob, signed) && ob.round.target == |ob.chain| + 1 && Deliverable(cfg, signed, m)
    ensures Recorded(cfg, Handle(cfg, env, ob, from, m).ob, signed)
  {
    match m
    case RoundVoteMessage(v, sig) => VoteRecorded(cfg, env, ob, from, v, sig, signed);
    case AckMessage(a, sig) => AckRecorded(cfg, env, ob, from, a, sig, signed);
    case SetupMessage(a, sig) =>
    case BlockGenMessage(gen) => GenRecorded(cfg, env, ob, gen, signed);
    case BlockVoteMessage(v, sig) => BlockVoteRecorded(cfg, env, ob, from, v, sig, signed);
    case BlockMessage(b) => SameKept(cfg, ob, HandleBlock(ob, b).ob, signed);
  }

  lemma RepeatRecorded(cfg: Config, env: Env, ob: Observer, signed: set<Signature>, b: Observer)
    requires Recorded(cfg, ob, signed) && b == Repeat(cfg, env, ob).ob
    ensures Recorded(cfg, b, signed)
  {
    SameGensMoves(ob, b);
    SameKept(cfg, ob, b, signed);
  }

  lemma CountRecorded(cfg: Config, ob: Observer, signed: set<Signature>, counted: Observer)
    requires Recorded(cfg, ob, signed) && counted == ob.(round := ob.round.(failCount := ob.round.failCount + 1))
    ensures Recorded(cfg, counted, signed)
  {
    SameGensMoves(ob, counted);
    SameKept(cfg, ob, counted, signed);
  }

  lemma TickRecorded(cfg: Config, env: Env, ob: Observer, signed: set<Signature>)
    requires Recorded(cfg, ob, signed)
    ensures Recorded(cfg, Tick(cfg, env, ob).ob, signed)
  {
    SyncRecorded(cfg, ob, signed);
    var s := Sync(cfg, ob);
    if s.code == Ok && env.formulators != {} {
      var counted := s.ob.(round := s.ob.round.(failCount := s.ob.round.failCount + 1));
      CountRecorded(cfg, s.ob, signed, counted);
      if counted.round.failCount > MAX_VOTE_FAIL {
        var blamed := if counted.round.minAck.Some? then {counted.round.minAck.value.formulator} else {};
        ResetRecorded(cfg, counted, signed);
        RepeatRecorded(cfg, env.(formulators := env.formulators - blamed), ResetRound(cfg, counted), signed,
                       Tick(cfg, env, ob).ob);
      } else {
        RepeatRecorded(cfg, env, counted, signed, Tick(cfg, env, ob).ob);
      }
    }
  }

  lemma QueuedRecorded(cfg: Config, ob: Observer, signed: set<Signature>)
    requires Recorded(cfg, ob, signed)
    ensures Recorded(cfg, ConnectQueued(cfg, ob).ob, signed)
  {
    SameKept(cfg, ob, ConnectQueued(cfg, ob).ob, signed);
  }

  lemma ActRecorded(cfg: Config, ob: Observer, e: Event, signed: set<Signature>)
    requires Recorded(cfg, ob, signed) && (e.Deliver? ==> Deliverable(cfg, signed, e.m))
    ensures Recorded(cfg, Act(cfg, ob, e).ob, signed)
  {
    match e
    case Deliver(_, env, from, m) =>
      SyncKeeps(cfg, ob);
      SyncRecorded(cfg, ob, signed);
      if Sync(cfg, ob).code == Ok { HandleRecorded(cfg, env, Sync(cfg, ob).ob, from, m, signed); }
    case VoteTimer(_, env) => TickRecorded(cfg, env, ob, signed);
    case BlockTimer(_) => QueuedRecorded(cfg, ob, signed);
    case RestartOf(_) => ResetRecorded(cfg, ob, signed);
  }

  ghost predicate AllRecorded(cfg: Config, w: World) {
    forall k :: k in w.obs ==> Recorded(cfg, w.obs[k], w.signed)
  }

  lemma StepRecorded(cfg: Config, v: World, e: Event)
    requires AllRecorded(cfg, v) && Legal(cfg, v, e)
    ensures AllRecorded(cfg, Next(cfg, v, e))
  {
    var u := Next(cfg, v, e);
    ActRecorded(cfg, v.obs[e.k], e, v.signed);
    MoreSigned(cfg, Act(cfg, v.obs[e.k], e).ob, v.signed, u.signed);
    forall k | k in u.obs && k != e.k ensures Recorded(cfg, u.obs[k], u.signed) {
      MoreSigned(cfg, v.obs[k], v.signed, u.signed);
    }
  }

  /** In every run, under any network that cannot forge observer signatures: an observer has on record only round votes
      and acknowledgements that their senders have made, while it collects them all are for its height, its chain and
      the rank table there, and it waits only for blocks of a formulator in that table. */
  lemma {:induction false} RecordsHold(cfg: Config, w: World, es: seq<Event>)
    requires Init(cfg, w) && LegalRun(cfg, w, es)
    ensures AllRecorded(cfg, After(cfg, w, es))
  {
    if es != [] {
      var front := es[..|es| - 1];
      assert forall i :: 0 <= i < |front| ==> front[..i] == es[..i] && front[i] == es[i];
      RecordsHold(cfg, w, front);
      assert Legal(cfg, After(cfg, w, front), es[|es| - 1]);
      StepRecorded(cfg, After(cfg, w, front), es[|es| - 1]);
    }
  }
}
