/** The observer as the object the node runs: its handlers change the round, the chain and the
    outbox step by step, and each is proved against the event it stands for. */
module ObserverNode {
  import opened Options
  import opened ObserverTypes
  import opened ObserverRound
  import opened Agreement
  import opened VoteChecks

  // ---- loops over the round's maps ----

  ghost predicate Distinct(order: seq<Key>) {
    forall i, j :: 0 <= i < j < |order| ==> order[i] != order[j]
  }

  lemma AckOutsAre(cfg: Config, env: Env, was: Observer, from: Key, a: Ack, acked: Observer,
                   reply: set<Output>, settled: set<Output>, sent: set<Output>)
    requires acked == WithAck(was, from, a) && settled == SettleAckOuts(cfg, env, acked)
    requires reply == if !a.isReply && from != was.me then AckTo(env, acked, from) else {}
    ensures sent + reply + settled == sent + AckOuts(cfg, env, was, from, a, Ok)
  {
    assert sent + reply + settled == sent + (reply + settled);
  }

  method MakeVoteRound(target: nat, maxBlocks: nat) returns (r: Round)
    ensures r == NewVoteRound(target, maxBlocks)
  {
    var blocks: map<nat, BlockRound> := map[];
    for h := target to target + maxBlocks
      invariant forall i :: i in blocks <==> target <= i < h
      invariant forall i :: i in blocks ==> blocks[i] == NewBlockRoundAt(i)
    {
      blocks := blocks[h := NewBlockRoundAt(h)];
    }
    assert blocks == NewVoteRound(target, maxBlocks).blocks;
    r := Round(RoundVoting, target, map[], 0, map[], None, map[], blocks, 0);
  }

  /** The first of the votes sorted by timeout count and then by key. */
  method LeastVote(votes: map<Key, RoundVote>) returns (k: Key)
    requires votes != map[]
    ensures IsMinVote(votes, k)
  {
    var rest := votes.Keys;
    k :| k in rest;
    rest := rest - {k};
    while rest != {}
      invariant k in votes && k !in rest && rest <= votes.Keys
      invariant forall j :: j in votes && j !in rest && j != k ==> VoteLess(votes, k, j)
      decreases rest
    {
      var j :| j in rest;
      rest := rest - {j};
      if votes[j].timeout < votes[k].timeout || (votes[j].timeout == votes[k].timeout && j < k) {
        k := j;
      }
    }
  }

  lemma MinVoteUnique(votes: map<Key, RoundVote>, k: Key)
    requires IsMinVote(votes, k)
    ensures MinVote(votes) == k
  {
    var j := MinVote(votes);
    assert IsMinVote(votes, j);
  }

  function Count(counts: map<nat, nat>, x: nat): nat { if x in counts then counts[x] else 0 }

  lemma SeenNext(order: seq<Key>, i: nat)
    requires Distinct(order) && i < |order|
    ensures order[i] !in Seen(order, i) && Seen(order, i + 1) == Seen(order, i) + {order[i]}
  {
    assert order[..i + 1] == order[..i] + [order[i]];
  }

  lemma OneMoreTimeout(acks: map<Key, Ack>, seen: set<Key>, k: Key, t: nat)
    requires k !in seen && k in acks
    ensures |TimeoutBackers(acks, seen + {k}, t)| ==
      |TimeoutBackers(acks, seen, t)| + (if acks[k].timeout == t then 1 else 0)
  {
    var b := TimeoutBackers(acks, seen, t);
    assert TimeoutBackers(acks, seen + {k}, t) == if acks[k].timeout == t then b + {k} else b;
  }

  lemma OneMoreChosen(acks: map<Key, Ack>, seen: set<Key>, k: Key, c: Key)
    requires k !in seen && k in acks
    ensures |ChosenBackers(acks, seen + {k}, c)| ==
      |ChosenBackers(acks, seen, c)| + (if acks[k].chosen == c then 1 else 0)
  {
    var b := ChosenBackers(acks, seen, c);
    assert ChosenBackers(acks, seen + {k}, c) == if acks[k].chosen == c then b + {k} else b;
  }

  ghost predicate CountsTimeouts(counts: map<nat, nat>, acks: map<Key, Ack>, seen: set<Key>) {
    forall t: nat :: Count(counts, t) == |TimeoutBackers(acks, seen, t)|
  }

  ghost predicate CountsChosen(counts: map<nat, nat>, acks: map<Key, Ack>, seen: set<Key>) {
    forall c: Key :: Count(counts, c) == |ChosenBackers(acks, seen, c)|
  }

  lemma CountOne(timeouts: map<nat, nat>, chosens: map<nat, nat>, acks: map<Key, Ack>, seen: set<Key>, k: Key)
    requires CountsTimeouts(timeouts, acks, seen) && CountsChosen(chosens, acks, seen) && k !in seen && k in acks
    ensures CountsTimeouts(timeouts[acks[k].timeout := Count(timeouts, acks[k].timeout) + 1], acks, seen + {k})
    ensures CountsChosen(chosens[acks[k].chosen := Count(chosens, acks[k].chosen) + 1], acks, seen + {k})
  {
    forall t: nat ensures |TimeoutBackers(acks, seen + {k}, t)| ==
      Count(timeouts, t) + (if acks[k].timeout == t then 1 else 0)
    {
      OneMoreTimeout(acks, seen, k, t);
    }
    forall c: Key ensures |ChosenBackers(acks, seen + {k}, c)| ==
      Count(chosens, c) + (if acks[k].chosen == c then 1 else 0)
    {
      OneMoreChosen(acks, seen, k, c);
    }
  }

  /** Walks the acknowledgements, counting timeout counts and chosen observers, and stops at the
      first that brings both of its counts to the quorum. */
  method CountAcks(acks: map<Key, Ack>, order: seq<Key>, quorum: nat) returns (r: Option<Ack>)
    requires Distinct(order) && forall k :: k in order ==> k in acks
    ensures r == ChooseAck(acks, order, quorum, 0)
  {
    var timeouts: map<nat, nat>, chosens: map<nat, nat> := map[], map[];
    for i := 0 to |order|
      invariant CountsTimeouts(timeouts, acks, Seen(order, i)) && CountsChosen(chosens, acks, Seen(order, i))
      invariant ChooseAck(acks, order, quorum, 0) == ChooseAck(acks, order, quorum, i)
    {
      var vt := acks[order[i]];
      SeenNext(order, i);
      CountOne(timeouts, chosens, acks, Seen(order, i), order[i]);
      var timeoutCount := Count(timeouts, vt.timeout) + 1;
      timeouts := timeouts[vt.timeout := timeoutCount];
      var chosenCount := Count(chosens, vt.chosen) + 1;
      chosens := chosens[vt.chosen := chosenCount];
      assert Count(timeouts, vt.timeout) == timeoutCount && Count(chosens, vt.chosen) == chosenCount;
      if timeoutCount >= quorum && chosenCount >= quorum {
        return Some(vt);
      }
    }
    return None;
  }

  method Trim(blocks: map<nat, BlockRound>, limit: nat, formulator: Address) returns (r: map<nat, BlockRound>)
    ensures r == TrimBlocks(blocks, limit, formulator)
  {
    r := blocks;
    var rest := blocks.Keys;
    while rest != {}
      invariant rest <= blocks.Keys
      invariant forall h :: h in r <==> h in blocks && (h in rest || h < limit)
      invariant forall h :: h in r && h in rest ==> r[h] == blocks[h]
      invariant forall h :: h in r && h !in rest ==> r[h] == TrimBlocks(blocks, limit, formulator)[h]
      decreases rest
    {
      var h :| h in rest;
      if h >= limit {
        r := r - {h};
      } else if r[h].genWait.Some? && r[h].genWait.value.block.header.generator != formulator {
        r := r[h := r[h].(genWait := None)];
      }
      rest := rest - {h};
    }
  }

  method CollectSigs(br: BlockRound, order: seq<Key>) returns (sigs: seq<Signature>)
    requires br.gen.Some? && forall k :: k in order ==> k in br.votes
    ensures sigs == AssembleSigs(br, order)
  {
    sigs := [br.gen.value.genSig];
    for i := 0 to |order|
      invariant |sigs| == i + 1 && sigs == AssembleSigs(br, order)[..i + 1]
    {
      sigs := sigs + [br.votes[order[i]].obSig];
    }
  }

  datatype SigError = NoError | InsufficientSignature | InvalidSignature | DuplicatedSignature

  ghost predicate GoodSig(payload: Payload, sig: Signature, keys: set<Key>) {
    sig.payload == payload && sig.signer in keys
  }

  /** The majority check: exactly a majority of signatures, all over the payload, all by distinct
      known keys. */
  method ValidateSignaturesMajority(payload: Payload, sigs: seq<Signature>, keys: set<Key>) returns (err: SigError)
    ensures err == NoError <==> SignedByMajority(payload, sigs, keys)
    ensures err == InsufficientSignature <==> |sigs| != |keys| / 2 + 1
    ensures err == InvalidSignature <==>
      |sigs| == |keys| / 2 + 1 && exists i :: 0 <= i < |sigs| && !GoodSig(payload, sigs[i], keys)
  {
    if |sigs| != |keys| / 2 + 1 {
      return InsufficientSignature;
    }
    var signers: set<Key> := {};
    for i := 0 to |sigs|
      invariant forall j :: 0 <= j < i ==> GoodSig(payload, sigs[j], keys)
      invariant signers == Signers(sigs, i)
    {
      var recovered := RecoverPubkey(payload, sigs[i]);
      if recovered.None? || recovered.value !in keys {
        assert !GoodSig(payload, sigs[i], keys);
        return InvalidSignature;
      }
      signers := signers + {recovered.value};
    }
    SignersSize(sigs, |sigs|);
    if |signers| != |sigs| {
      return DuplicatedSignature;
    }
    return NoError;
  }

  /** The consensus check on the signatures of a finished block. */
  method ValidateSignature(cfg: Config, chain: seq<Block>, b: Block) returns (ok: bool)
    ensures ok <==> ValidSignatures(cfg, chain, b)
  {
    if b.header.timeoutCount.None? || b.sigs == [] {
      return false;
    }
    var top := TopRank(cfg, chain, b.header.timeoutCount.value);
    if top.None? || top.value.address != b.header.generator {
      return false;
    }
    var generator := RecoverPubkey(OfHeader(b.header), b.sigs[0]);
    if generator != Some(top.value.publicHash) || |b.sigs| != |cfg.keys| / 2 + 2 {
      return false;
    }
    var err := ValidateSignaturesMajority(OfBlockSign(b.header, b.sigs[0]), b.sigs[1..], cfg.keys);
    return err == NoError;
  }

  // ---- what agreement needs of the node ----

  /** A step keeps the observer safe at every height: it signs no second header there, keeps votes only with their
      signatures and connects only what a majority has signed; and it signs only for itself. */
  ghost predicate Sound(cfg: Config, was: Observer, now: Observer, sent: set<Output>, e: Event) {
    forall h, signed :: SafeBefore(cfg, h, was, signed, e) ==> ActsWell(cfg, h, was, Step(now, sent, Ok), signed)
  }

  ghost predicate SafeBefore(cfg: Config, h: nat, was: Observer, signed: set<Signature>, e: Event) {
    && ObserverInv(cfg, h, was.me, was, signed) && !Forgets(cfg, h, was, e)
    && (e.Deliver? ==> Deliverable(cfg, signed, e.m))
  }

  lemma ActIsSound(cfg: Config, was: Observer, e: Event, st: Step)
    requires was.me == e.k && st == Act(cfg, was, e)
    ensures Sound(cfg, was, st.ob, st.outs, e)
  {
    forall h, signed | SafeBefore(cfg, h, was, signed, e)
      ensures ActsWell(cfg, h, was, Step(st.ob, st.outs, Ok), signed)
    {
      ActKeeps(cfg, h, was, e, signed);
    }
  }

  lemma ReceivedAll(cfg: Config, env: Env, was: Observer, from: Key, m: Message, a: set<Output>, b: set<Output>,
                    c: set<Output>)
    requires b == a + Sync(cfg, was).outs
    requires c == b + if Sync(cfg, was).code == Ok then Handle(cfg, env, Sync(cfg, was).ob, from, m).outs else {}
    ensures c == a + Receive(cfg, env, was, from, m).outs
  {
  }

  /** The orders in which the maps of the round are walked. */
  ghost predicate OrderFits(env: Env, ob: Observer, from: Key, m: Message) {
    match m
    case AckMessage(_, _) => Distinct(env.order) && forall k :: k in env.order ==> k in ob.round.acks || k == from
    case BlockVoteMessage(v, _) => v.header.height in ob.round.blocks ==>
      forall k :: k in env.order ==> k in ob.round.blocks[v.header.height].votes || k == from
    case _ => true
  }

  /** The part of the block vote check that is about the vote alone. */
  function VoteCheck(cfg: Config, ob: Observer, from: Key, v: BlockVote): Code
    requires v.header.height in ob.round.blocks
  {
    var r := ob.round;
    var h := v.header;
    if CheckTop(cfg, ob.chain, h) != Ok then CheckTop(cfg, ob.chain, h)
    else if r.minAck.None? || r.blocks[h.height].gen.None? then Panic
    else
      var check := CheckSigner(cfg, ob.chain, r.minAck.value, h, v.genSig);
      if check != Ok then check
      else if h.prevHash != LastHash(ob.chain) || h != r.blocks[h.height].gen.value.block.header then InvalidVote
      else if !ValidHeader(cfg, ob.chain, h) then BadHeader
      else match RecoverPubkey(OfBlockSign(h, v.genSig), v.obSig)
        case None => BadSignature
        case Some(signer) => if signer != from then InvalidVote else Ok
  }

  /** A vote that is in time is refused, known already, or landed. */
  function InTime(cfg: Config, env: Env, ob: Observer, from: Key, v: BlockVote): Step
    requires v.header.height in ob.round.blocks && v.header.height == ob.round.target && ob.round.state == BlockVoting
  {
    var h := v.header.height;
    var code := VoteCheck(cfg, ob, from, v);
    if code != Ok then Step(ob, {}, code)
    else if from in ob.round.blocks[h].votes
      then Step(ob, if v.isReply then {} else VoteAgainTo(ob, h, from), AlreadyVoted)
    else LandVote(cfg, env, ob, from, v)
  }

  ghost predicate IsInTime(ob: Observer, v: BlockVote) {
    v.header.height in ob.round.blocks && v.header.height == ob.round.target && ob.round.state == BlockVoting
  }

  lemma InTimeCode(cfg: Config, ob: Observer, from: Key, v: BlockVote, sig: Signature, check: Code)
    requires Authentic(cfg, from, OfBlockVote(v), sig) == Ok && IsInTime(ob, v) && check == VoteCheck(cfg, ob, from, v)
    ensures BlockVoteCode(cfg, ob, from, v, sig) ==
      if check != Ok then check else if from in ob.round.blocks[v.header.height].votes then AlreadyVoted else Ok
    ensures check == Ok ==> VoteLands(ob.round, v.header.height)
    ensures check != AlreadyVoted
  {
  }

  lemma VoteInTime(cfg: Config, env: Env, ob: Observer, from: Key, v: BlockVote, sig: Signature)
    requires Authentic(cfg, from, OfBlockVote(v), sig) == Ok && IsInTime(ob, v)
    ensures HandleBlockVote(cfg, env, ob, from, v, sig) == InTime(cfg, env, ob, from, v)
  {
    var check := VoteCheck(cfg, ob, from, v);
    InTimeCode(cfg, ob, from, v, sig, check);
    var code := BlockVoteCode(cfg, ob, from, v, sig);
    if code == Ok {
      assert HandleBlockVote(cfg, env, ob, from, v, sig) == LandVote(cfg, env, ob, from, v);
    } else {
      assert HandleBlockVote(cfg, env, ob, from, v, sig) == Step(ob, BlockVoteOuts(ob, from, v, code), code);
      InTimeOuts(ob, from, v, code, BlockVoteOuts(ob, from, v, code));
    }
  }

  lemma InTimeOuts(ob: Observer, from: Key, v: BlockVote, code: Code, outs: set<Output>)
    requires IsInTime(ob, v) && outs == BlockVoteOuts(ob, from, v, code)
    ensures outs == if code == AlreadyVoted && !v.isReply then VoteAgainTo(ob, v.header.height, from) else {}
  {
  }

  lemma ChoiceIs(cfg: Config, env: Env, ob: Observer, min: Option<Ack>)
    requires |ob.round.acks| >= |cfg.keys| / 2 + 1 && min == ChooseAck(ob.round.acks, env.order, |cfg.keys| / 2 + 1, 0)
    ensures SettleAck(cfg, env, ob) == if min.None? then ob else CloseAck(cfg, ob, min.value)
    ensures SettleAckOuts(cfg, env, ob) == if min.None? then {} else AckCloses(cfg, env, ob, min.value)
  {
  }

  // ---- the node ----

  class Node {
    const cfg: Config
    const me: Key
    var chain: seq<Block>
    var round: Round
    var blockQ: map<nat, Block>
    var outbox: set<Output>

    function State(): Observer
      reads this
    {
      Observer(me, chain, round, blockQ)
    }

    constructor (cfg: Config, me: Key, chain: seq<Block>)
      ensures this.cfg == cfg && State() == Observer(me, chain, NewVoteRound(|chain| + 1, cfg.maxBlocks), map[])
      ensures outbox == {}
    {
      this.cfg, this.me, this.chain := cfg, me, chain;
      var first := MakeVoteRound(|chain| + 1, cfg.maxBlocks);
      this.round, this.blockQ, this.outbox := first, map[], {};
    }

    method ResetVoteRound()
      modifies this`round
      ensures State() == ResetRound(cfg, old(State()))
    {
      round := MakeVoteRound(|chain| + 1, cfg.maxBlocks);
    }

    method SyncVoteRound() returns (code: Code)
      modifies this`round, this`outbox
      ensures var st := Sync(cfg, old(State()));
        State() == st.ob && outbox == old(outbox) + st.outs && code == st.code
    {
      var h := |chain| + 1;
      if round.target >= h {
        return Ok;
      }
      var top := TopRank(cfg, chain, 0);
      if top.None? {
        return Panic;
      }
      if round.minAck.Some? && top.value.address == round.minAck.value.formulator && h in round.blocks {
        round := round.(target := h, state := BlockWaiting);
        var br := round.blocks[h];
        if br.genWait.Some? && br.gen.None? {
          outbox := outbox + {Requeue(0, BlockGenMessage(br.genWait.value))};
          round := round.(blocks := round.blocks[h := br.(genWait := None)]);
        }
      } else {
        ResetVoteRound();
      }
      return Ok;
    }

    // ---- what a message must satisfy ----

    /** The best ranked formulator among the connected ones, and its place. */
    method FindTop(formulators: set<Address>) returns (top: Option<(Rank, nat)>)
      ensures top == TopRankInMap(cfg, chain, formulators)
    {
      if formulators == {} {
        return None;
      }
      var ranks := cfg.ranks(chain);
      for i := 0 to |ranks|
        invariant FirstIn(ranks, formulators, 0) == FirstIn(ranks, formulators, i)
      {
        if ranks[i].address in formulators {
          return Some((ranks[i], i));
        }
      }
      return None;
    }

    method CheckSender(from: Key, payload: Payload, sig: Signature) returns (code: Code)
      ensures code == Authentic(cfg, from, payload, sig)
    {
      var signer := RecoverPubkey(payload, sig);
      if signer.None? {
        return BadSignature;
      }
      if signer.value != from {
        return InvalidPublicHash;
      }
      if from !in cfg.keys {
        return InvalidObserverKey;
      }
      return Ok;
    }

    /** The vote is for this chain and names the formulator that the rank table has at its timeout count. */
    method CheckVoted(chainID: nat, lastHash: Hash, timeout: nat, formulator: Address, key: Key) returns (code: Code)
      ensures code == CheckRound(cfg, chain, chainID, lastHash, timeout, formulator, key)
    {
      if chainID != cfg.chainID || lastHash != LastHash(chain) {
        return InvalidVote;
      }
      var top := TopRank(cfg, chain, timeout);
      if top.None? {
        return InsufficientCandidates;
      }
      if formulator != top.value.address || key != top.value.publicHash {
        return InvalidVote;
      }
      return Ok;
    }

    /** The header is by the formulator at its timeout count. */
    method CheckGenerator(h: Header) returns (code: Code)
      ensures code == CheckTop(cfg, chain, h)
    {
      if h.timeoutCount.None? {
        return BadConsensusData;
      }
      var top := TopRank(cfg, chain, h.timeoutCount.value);
      if top.None? {
        return InsufficientCandidates;
      }
      if h.generator != top.value.address {
        return InvalidVote;
      }
      return Ok;
    }

    /** It is signed by that formulator, which is the chosen one. */
    method CheckGenSig(min: Ack, h: Header, genSig: Signature) returns (code: Code)
      requires CheckTop(cfg, chain, h) == Ok
      ensures code == CheckSigner(cfg, chain, min, h, genSig)
    {
      var signer := RecoverPubkey(OfHeader(h), genSig);
      if signer.None? {
        return BadSignature;
      }
      var top := TopRank(cfg, chain, h.timeoutCount.value).value;
      if signer.value != top.publicHash {
        return InvalidTopSignature;
      }
      if h.generator != min.formulator || signer.value != min.formulatorKey {
        return InvalidVote;
      }
      return Ok;
    }

    // ---- what is sent to one observer ----

    /** Someone who is behind is told the height. */
    method SendStatusTo(target: nat, isReply: bool, to: Key)
      modifies this`outbox
      ensures outbox == old(outbox) + Behind(State(), target, isReply, to)
    {
      if target < round.target && !isReply && to != me {
        outbox := outbox + {Status(to)};
      }
    }

    /** The vote for the block of a height, if there is one to repeat. */
    method SendBlockVoteTo(h: nat, to: Key)
      modifies this`outbox
      ensures outbox == old(outbox) + VoteAgainTo(State(), h, to)
    {
      if round.state != BlockVoting || h !in round.blocks || to == me {
        return;
      }
      var gen := round.blocks[h].gen;
      if gen.Some? {
        outbox := outbox + {To(to, SignedVote(me, gen.value, true))};
      }
    }

    /** The own round vote: the one sent before while a block is voted on, and a new one otherwise. */
    method SendRoundVoteTo(env: Env, to: Key)
      modifies this`outbox
      ensures outbox == old(outbox) + RoundVoteTo(cfg, env, State(), to)
    {
      if to == me {
        return;
      }
      if round.state == BlockVoting {
        if me !in round.roundVotes {
          return;
        }
        var v := round.roundVotes[me].(isReply := true);
        if v.target != |chain| + 1 {
          v := v.(timeout := 0, target := |chain| + 1, lastHash := LastHash(chain), timestamp := env.now);
        }
        outbox := outbox + {To(to, RoundVoteMessage(v, Sign(me, OfRoundVote(v))))};
        return;
      }
      var top := FindTop(env.formulators);
      if top.Some? {
        var (rank, place) := top.value;
        var v := RoundVote(cfg.chainID, LastHash(chain), |chain| + 1, place, rank.address, rank.publicHash, env.now,
          true);
        outbox := outbox + {To(to, RoundVoteMessage(v, Sign(me, OfRoundVote(v))))};
      }
    }

    /** The own acknowledgement, if there is one. */
    method SendAckTo(env: Env, to: Key)
      modifies this`outbox
      ensures outbox == old(outbox) + AckTo(env, State(), to)
    {
      if to == me || me !in round.acks {
        return;
      }
      var a := round.acks[me].(isReply := true);
      if round.state == BlockVoting && a.target != |chain| + 1 {
        a := a.(timeout := 0, target := |chain| + 1, lastHash := LastHash(chain), timestamp := env.now);
      }
      outbox := outbox + {To(to, AckMessage(a, Sign(me, OfAck(a))))};
    }

    // ---- the messages ----

    method OnRoundVote(env: Env, from: Key, v: RoundVote, sig: Signature) returns (code: Code)
      modifies this`round, this`outbox
      ensures var st := HandleRoundVote(cfg, env, old(State()), from, v, sig);
        State() == st.ob && outbox == old(outbox) + st.outs && code == st.code
    {
      code := CheckSender(from, OfRoundVote(v), sig);
      if code != Ok {
        return;
      }
      if v.target != round.target {
        SendStatusTo(v.target, v.isReply, from);
        return InvalidVote;
      }
      code := CheckVoted(v.chainID, v.lastHash, v.timeout, v.formulator, v.formulatorKey);
      if code != Ok {
        return;
      }
      if round.state != RoundVoting {
        if !v.isReply && from != me {
          SendBlockVoteTo(v.target, from);
          SendRoundVoteTo(env, from);
        }
        return InvalidRoundState;
      }
      if from in round.roundVotes && v.timestamp <= round.roundVotes[from].timestamp {
        if !v.isReply && from != me {
          SendRoundVoteTo(env, from);
        }
        return AlreadyVoted;
      }
      ApplyRoundVote(env, from, v);
    }

    method ApplyRoundVote(env: Env, from: Key, v: RoundVote)
      modifies this`round, this`outbox
      ensures State() == AfterRoundVote(cfg, old(State()), from, v)
      ensures outbox == old(outbox) + RoundVoteOuts(cfg, env, old(State()), from, v, Ok)
    {
      round := round.(roundVotes := round.roundVotes[from := v]);
      ghost var voted, sent := State(), outbox;
      if !v.isReply && from != me {
        SendRoundVoteTo(env, from);
      }
      ghost var reply := if !v.isReply && from != me then RoundVoteTo(cfg, env, voted, from) else {};
      if |round.roundVotes| >= |cfg.keys| / 2 + 2 {
        SelectRoundVote(env);
        assert outbox == sent + (reply + RoundVoteCloses(env, CloseRoundVote(voted)));
      }
    }

    /** Takes the least vote and acknowledges it. */
    method SelectRoundVote(env: Env)
      requires round.roundVotes != map[]
      modifies this`round, this`outbox
      ensures State() == CloseRoundVote(old(State()))
      ensures outbox == old(outbox) + RoundVoteCloses(env, State())
    {
      var k := LeastVote(round.roundVotes);
      MinVoteUnique(round.roundVotes, k);
      round := round.(state := AckVoting, minVote := k);
      var v := round.roundVotes[k];
      var a := Ack(v.chainID, v.lastHash, v.target, v.timeout, v.formulator, v.formulatorKey, k, env.now, false);
      var early := set j | j in round.ackWait :: Requeue(j, round.ackWait[j]);
      outbox := outbox + ({Broadcast(AckMessage(a, Sign(me, OfAck(a))))} + early);
    }

    method OnAck(env: Env, from: Key, a: Ack, sig: Signature) returns (code: Code)
      requires Distinct(env.order) && forall k :: k in env.order ==> k in round.acks || k == from
      modifies this`round, this`outbox
      ensures var st := HandleAck(cfg, env, old(State()), from, a, sig);
        State() == st.ob && outbox == old(outbox) + st.outs && code == st.code
    {
      code := CheckSender(from, OfAck(a), sig);
      if code != Ok {
        return;
      }
      if a.target != round.target {
        SendStatusTo(a.target, a.isReply, from);
        return InvalidVote;
      }
      code := CheckVoted(a.chainID, a.lastHash, a.timeout, a.formulator, a.formulatorKey);
      if code != Ok {
        return;
      }
      if round.state != AckVoting {
        if round.state == RoundVoting {
          round := round.(ackWait := round.ackWait[from := AckMessage(a, sig)]);
        } else if !a.isReply && from != me {
          SendBlockVoteTo(a.target, from);
          SendAckTo(env, from);
        }
        return InvalidRoundState;
      }
      if from in round.acks && a.timestamp <= round.acks[from].timestamp {
        if !a.isReply {
          SendAckTo(env, from);
        }
        return AlreadyVoted;
      }
      ApplyAck(env, from, a);
    }

    method ApplyAck(env: Env, from: Key, a: Ack)
      requires Distinct(env.order) && forall k :: k in env.order ==> k in round.acks || k == from
      modifies this`round, this`outbox
      ensures State() == AfterAck(cfg, env, old(State()), from, a)
      ensures outbox == old(outbox) + AckOuts(cfg, env, old(State()), from, a, Ok)
    {
      round := round.(acks := round.acks[from := a]);
      ghost var was, acked, sent := old(State()), State(), outbox;
      assert acked == WithAck(was, from, a);
      ghost var reply := ReplyAck(env, from, a);
      ChooseFromAcks(env);
      AckOutsAre(cfg, env, was, from, a, acked, reply, SettleAckOuts(cfg, env, acked), sent);
    }

    method ReplyAck(env: Env, from: Key, a: Ack) returns (ghost reply: set<Output>)
      modifies this`outbox
      ensures reply == (if !a.isReply && from != me then AckTo(env, State(), from) else {})
      ensures outbox == old(outbox) + reply
    {
      reply := {};
      if !a.isReply && from != me {
        reply := AckTo(env, State(), from);
        SendAckTo(env, from);
      }
    }

    /** Once enough acknowledgements are in, looks for one to choose. */
    method ChooseFromAcks(env: Env)
      requires Distinct(env.order) && forall k :: k in env.order ==> k in round.acks
      modifies this`round, this`outbox
      ensures State() == SettleAck(cfg, env, old(State()))
      ensures outbox == old(outbox) + SettleAckOuts(cfg, env, old(State()))
    {
      if |round.acks| >= |cfg.keys| / 2 + 1 {
        var min := CountAcks(round.acks, env.order, |cfg.keys| / 2 + 1);
        ChoiceIs(cfg, env, State(), min);
        if min.Some? {
          CloseAckVote(env, min.value);
        }
      }
    }

    /** Fixes the chosen acknowledgement and waits for its formulator's block. */
    method CloseAckVote(env: Env, min: Ack)
      modifies this`round, this`outbox
      ensures State() == CloseAck(cfg, old(State()), min)
      ensures outbox == old(outbox) + AckCloses(cfg, env, old(State()), min)
    {
      var blocks := Trim(round.blocks, round.target + RemainBlocks(cfg, chain, min.timeout), min.formulator);
      StartWaiting(env, min, blocks);
    }

    method StartWaiting(env: Env, min: Ack, blocks: map<nat, BlockRound>)
      modifies this`round, this`outbox
      ensures State() == WithChoice(old(State()), min, blocks)
      ensures outbox == old(outbox) + ChoiceOuts(env, old(State()), min, blocks)
    {
      var h := round.target;
      var setup := min.(timestamp := env.now, isReply := false);
      var outs := {Broadcast(SetupMessage(setup, Sign(me, OfAck(setup))))};
      round := round.(state := BlockWaiting, minAck := Some(min), blocks := blocks);
      if h in blocks && blocks[h].genWait.Some? && blocks[h].gen.None? {
        outs := outs + {Requeue(0, BlockGenMessage(blocks[h].genWait.value))};
        round := round.(blocks := blocks[h := blocks[h].(genWait := None)]);
      }
      outbox := outbox + outs;
    }

    method OnSetup(from: Key, a: Ack, sig: Signature) returns (code: Code)
      modifies this`outbox
      ensures var st := HandleSetup(cfg, State(), from, a, sig);
        State() == st.ob && outbox == old(outbox) + st.outs && code == st.code
    {
      code := CheckSender(from, OfAck(a), sig);
      if code != Ok {
        return;
      }
      if a.target !in round.blocks {
        return InvalidVote;
      }
      if a.target != round.target {
        SendStatusTo(a.target, a.isReply, from);
        return InvalidVote;
      }
      code := CheckVoted(a.chainID, a.lastHash, a.timeout, a.formulator, a.formulatorKey);
      if code != Ok {
        return;
      }
      if round.state == BlockVoting {
        var br := round.blocks[a.target];
        if from !in br.votes && from != me && br.gen.Some? {
          outbox := outbox + {To(from, BlockGenMessage(br.gen.value))};
        }
        SendBlockVoteTo(a.target, from);
      }
    }

    method OnBlockGen(env: Env, gen: BlockGen) returns (code: Code)
      modifies this`round, this`outbox
      ensures var st := HandleBlockGen(cfg, env, old(State()), gen);
        State() == st.ob && outbox == old(outbox) + st.outs && code == st.code
    {
      var header := gen.block.header;
      var h := header.height;
      if h !in round.blocks || round.blocks[h].gen.Some? {
        return InvalidVote;
      }
      var br := round.blocks[h];
      if h != round.target || round.state != BlockWaiting {
        if h > round.target || (h == round.target && (round.state == RoundVoting || round.state == AckVoting)) {
          round := round.(blocks := round.blocks[h := br.(genWait := Some(gen))]);
        }
        return InvalidVote;
      }
      code := CheckGenerator(header);
      if code != Ok {
        return;
      }
      if round.minAck.None? {
        return Panic;
      }
      if header.generator != round.minAck.value.formulator {
        return InvalidVote;
      }
      if br.genWait.Some? && header != br.genWait.value.block.header {
        return ForkedBlockGen;
      }
      code := CheckGenSig(round.minAck.value, header, gen.genSig);
      if code != Ok {
        return;
      }
      if !ValidHeader(cfg, chain, header) {
        return BadHeader;
      }
      if header.timestamp > env.now + TEN_SECONDS {
        return InvalidVote;
      }
      if !cfg.executes(chain, gen.block) {
        return BadExecution;
      }
      round := round.(state := BlockVoting, blocks := round.blocks[h := br.(gen := Some(gen))]);
      var early := set j | j in br.voteWait :: Requeue(j, br.voteWait[j]);
      outbox := outbox + ({Broadcast(SignedVote(me, gen, false))} + early);
    }

    method OnBlockVote(env: Env, from: Key, v: BlockVote, sig: Signature) returns (code: Code)
      requires v.header.height in round.blocks ==>
        forall k :: k in env.order ==> k in round.blocks[v.header.height].votes || k == from
      modifies this`round, this`chain, this`outbox
      ensures var st := HandleBlockVote(cfg, env, old(State()), from, v, sig);
        State() == st.ob && outbox == old(outbox) + st.outs && code == st.code
    {
      var h := v.header.height;
      code := CheckSender(from, OfBlockVote(v), sig);
      if code != Ok {
        return;
      }
      if h !in round.blocks {
        return InvalidVote;
      }
      if h != round.target || round.state != BlockVoting {
        KeepOrAnswer(env, from, v, sig);
        return InvalidVote;
      }
      VoteInTime(cfg, env, State(), from, v, sig);
      code := TakeVote(env, from, v);
    }

    /** A vote for the block that is voted on. */
    method TakeVote(env: Env, from: Key, v: BlockVote) returns (code: Code)
      requires v.header.height in round.blocks && v.header.height == round.target && round.state == BlockVoting
      requires forall k :: k in env.order ==> k in round.blocks[v.header.height].votes || k == from
      modifies this`round, this`chain, this`outbox
      ensures var st := InTime(cfg, env, old(State()), from, v);
        State() == st.ob && outbox == old(outbox) + st.outs && code == st.code
    {
      var h := v.header.height;
      code := CheckVote(from, v);
      if code != Ok {
        return;
      }
      if from in round.blocks[h].votes {
        if !v.isReply {
          SendBlockVoteTo(h, from);
        }
        return AlreadyVoted;
      }
      code := ApplyBlockVote(env, from, v);
    }

    /** A vote for a later stage is kept, the sender of one for an earlier height is told the height. */
    method KeepOrAnswer(env: Env, from: Key, v: BlockVote, sig: Signature)
      requires v.header.height in round.blocks && (v.header.height != round.target || round.state != BlockVoting)
      modifies this`round, this`outbox
      ensures VoteEarly(old(round), v.header.height) ==>
        State() == KeepVote(env, old(State()), from, v, sig) && outbox == old(outbox)
      ensures !VoteEarly(old(round), v.header.height) ==>
        State() == old(State()) && outbox == old(outbox) + BlockVoteOuts(old(State()), from, v, InvalidVote)
    {
      var h := v.header.height;
      if h < round.target {
        if from != me {
          outbox := outbox + {Status(from)};
        }
        return;
      }
      var br := round.blocks[h];
      round := round.(blocks := round.blocks[h := br.(voteWait := br.voteWait[from := BlockVoteMessage(v, sig)])]);
      if h == round.target && v.header.generator in env.ignored {
        round := round.(failCount := 0);
      }
    }

    /** The checks on a vote that is in time: the right generator, the header of the own block, a valid header, and
        a signature of the sender over it. */
    method CheckVote(from: Key, v: BlockVote) returns (code: Code)
      requires v.header.height in round.blocks
      ensures code == VoteCheck(cfg, State(), from, v)
    {
      var header := v.header;
      code := CheckGenerator(header);
      if code != Ok {
        return;
      }
      var gen := round.blocks[header.height].gen;
      if round.minAck.None? || gen.None? {
        return Panic;
      }
      code := CheckGenSig(round.minAck.value, header, v.genSig);
      if code != Ok {
        return;
      }
      if header.prevHash != LastHash(chain) || header != gen.value.block.header {
        return InvalidVote;
      }
      if !ValidHeader(cfg, chain, header) {
        return BadHeader;
      }
      var signer := RecoverPubkey(OfBlockSign(header, v.genSig), v.obSig);
      if signer.None? {
        return BadSignature;
      }
      if signer.value != from {
        return InvalidVote;
      }
    }

    method ApplyBlockVote(env: Env, from: Key, v: BlockVote) returns (code: Code)
      requires VoteLands(round, v.header.height)
      requires forall k :: k in env.order ==> k in round.blocks[v.header.height].votes || k == from
      modifies this`round, this`chain, this`outbox
      ensures var st := LandVote(cfg, env, old(State()), from, v);
        State() == st.ob && outbox == old(outbox) + st.outs && code == st.code
    {
      var h := v.header.height;
      round := round.(blocks := round.blocks[h := round.blocks[h].(votes := round.blocks[h].votes[from := v])]);
      ghost var voted, sent := State(), outbox;
      if !v.isReply {
        SendBlockVoteTo(h, from);
      }
      code := ConnectIfVoted(env);
      ghost var st := AfterBlockVote(cfg, env, voted);
      assert outbox == sent + (st.outs + if !v.isReply then VoteAgainTo(voted, h, from) else {});
    }

    method ConnectIfVoted(env: Env) returns (code: Code)
      requires VoteLands(round, round.target) && forall k :: k in env.order ==> k in round.blocks[round.target].votes
      modifies this`round, this`chain, this`outbox
      ensures var st := AfterBlockVote(cfg, env, old(State()));
        State() == st.ob && outbox == old(outbox) + st.outs && code == st.code
    {
      code := Ok;
      if |round.blocks[round.target].votes| >= |cfg.keys| / 2 + 1 {
        code := ConnectVotedBlock(env);
      }
    }

    method ConnectVotedBlock(env: Env) returns (code: Code)
      requires VoteLands(round, round.target) && forall k :: k in env.order ==> k in round.blocks[round.target].votes
      modifies this`round, this`chain, this`outbox
      ensures var b := VotedBlock(env, old(State()));
        && code == ConnectCode(cfg, env, old(State()), b)
        && State() == ConnectNext(cfg, old(State()), b, code)
        && outbox == old(outbox) + ConnectOuts(cfg, old(State()), b, code)
    {
      var br := round.blocks[round.target];
      var sigs := CollectSigs(br, env.order);
      var b := Block(br.gen.value.block.header, br.gen.value.block.body, sigs);
      if !cfg.connects(chain, b) {
        return NotConnected;
      }
      chain := chain + [b];
      if round.minAck.None? {
        return Panic;
      }
      var formulator := round.minAck.value.formulator;
      var others := env.formulators - {formulator};
      if others != {} {
        var second := FindTop(others);
        if second.None? {
          return InsufficientCandidates;
        }
      }
      var top := TopRank(cfg, chain, 0);
      if top.None? {
        return InsufficientCandidates;
      }
      var next := round.target + 1;
      if next in round.blocks && top.value.address == formulator {
        round := round.(state := BlockWaiting, target := next, failCount := 0);
        if round.blocks[next].genWait.Some? && round.blocks[next].gen.None? {
          outbox := outbox + {Requeue(0, BlockGenMessage(round.blocks[next].genWait.value))};
        }
      } else {
        ResetVoteRound();
      }
      return Ok;
    }

    /** Any message from another observer: the round is brought in line with the chain, and the message handled.
        Whatever the message is, the node stays safe. */
    method HandleMessage(env: Env, from: Key, m: Message) returns (code: Code, ghost sent: set<Output>)
      requires OrderFits(env, Sync(cfg, State()).ob, from, m)
      modifies this
      ensures Sound(cfg, old(State()), State(), sent, Deliver(me, env, from, m))
      ensures Careful(cfg, old(State()), State(), sent, Deliver(me, env, from, m))
      ensures State() == Receive(cfg, env, old(State()), from, m).ob && outbox == old(outbox) + sent
    {
      ghost var was, before := State(), outbox;
      code := SyncVoteRound();
      ghost var synced := outbox;
      if code == Ok {
        code := Dispatch(env, from, m);
      }
      ghost var st := Receive(cfg, env, was, from, m);
      sent := st.outs;
      ActIsSound(cfg, was, Deliver(me, env, from, m), st);
      ActIsCareful(cfg, was, Deliver(me, env, from, m), st);
      ReceivedAll(cfg, env, was, from, m, before, synced, outbox);
    }

    method Dispatch(env: Env, from: Key, m: Message) returns (code: Code)
      requires OrderFits(env, State(), from, m)
      modifies this
      ensures var st := Handle(cfg, env, old(State()), from, m);
        State() == st.ob && outbox == old(outbox) + st.outs && code == st.code
    {
      match m
      case RoundVoteMessage(v, sig) => code := OnRoundVote(env, from, v, sig);
      case AckMessage(a, sig) => code := OnAck(env, from, a, sig);
      case SetupMessage(a, sig) => code := OnSetup(from, a, sig);
      case BlockGenMessage(gen) => code := OnBlockGen(env, gen);
      case BlockVoteMessage(v, sig) => code := OnBlockVote(env, from, v, sig);
      case BlockMessage(b) => code := OnBlock(b);
    }

    method OnBlock(b: Block) returns (code: Code)
      modifies this`blockQ
      ensures var st := HandleBlock(old(State()), b); State() == st.ob && st.outs == {} && code == st.code
    {
      var h := b.header.height;
      if h <= |chain| {
        return if h > 0 && chain[h - 1].header == b.header then Ok else ForkedBlock;
      }
      if h in blockQ {
        return if blockQ[h].header == b.header then Ok else ForkedBlock;
      }
      blockQ := blockQ[h := b];
      return Ok;
    }

    /** One turn of the block timer: what it connects is certified. */
    method OnBlockTimer() returns (code: Code)
      modifies this`chain, this`blockQ
      ensures Sound(cfg, old(State()), State(), {}, BlockTimer(me))
      ensures Careful(cfg, old(State()), State(), {}, BlockTimer(me))
      ensures State() == ConnectQueued(cfg, old(State())).ob && code == ConnectQueued(cfg, old(State())).code
    {
      ghost var was := State();
      code := ConnectQueuedBlock();
      ActIsSound(cfg, was, BlockTimer(me), ConnectQueued(cfg, was));
      ActIsCareful(cfg, was, BlockTimer(me), ConnectQueued(cfg, was));
    }

    method ConnectQueuedBlock() returns (code: Code)
      modifies this`chain, this`blockQ
      ensures var st := ConnectQueued(cfg, old(State())); State() == st.ob && st.outs == {} && code == st.code
    {
      var h := |chain| + 1;
      if h !in blockQ {
        blockQ := map i | i in blockQ && i >= h :: blockQ[i];
        return Ok;
      }
      var b := blockQ[h];
      if !ValidHeader(cfg, chain, b.header) {
        return Panic;
      }
      var ok := ValidateSignature(cfg, chain, b);
      if !ok || !cfg.executes(chain, b) || !cfg.connects(chain, b) {
        return Panic;
      }
      chain := chain + [b];
      blockQ := map i | i in blockQ && i > h :: blockQ[i];
      return Ok;
    }

    /** One turn of the vote timer: safe unless it gives up a round in which a vote was signed. */
    method OnVoteTimer(env: Env) returns (ghost sent: set<Output>)
      modifies this`round, this`outbox
      ensures Sound(cfg, old(State()), State(), sent, Event.VoteTimer(me, env))
      ensures Careful(cfg, old(State()), State(), sent, Event.VoteTimer(me, env))
      ensures State() == Tick(cfg, env, old(State())).ob && outbox == old(outbox) + sent
    {
      ghost var was := State();
      VoteTimer(env);
      sent := Tick(cfg, env, was).outs;
      ActIsSound(cfg, was, Event.VoteTimer(me, env), Tick(cfg, env, was));
      ActIsCareful(cfg, was, Event.VoteTimer(me, env), Tick(cfg, env, was));
    }

    method VoteTimer(env: Env)
      modifies this`round, this`outbox
      ensures var st := Tick(cfg, env, old(State())); State() == st.ob && outbox == old(outbox) + st.outs
    {
      var code := SyncVoteRound();
      if code != Ok || env.formulators == {} {
        return;
      }
      round := round.(failCount := round.failCount + 1);
      if round.failCount > MAX_VOTE_FAIL {
        var blamed := if round.minAck.Some? then {round.minAck.value.formulator} else {};
        ResetVoteRound();
        RepeatVote(env.(formulators := env.formulators - blamed));
      } else {
        RepeatVote(env);
      }
    }

    method RepeatVote(env: Env)
      modifies this`round, this`outbox
      ensures var st := Repeat(cfg, env, old(State())); State() == st.ob && outbox == old(outbox) + st.outs
    {
      if round.state == RoundVoting {
        var top := FindTop(env.formulators);
        if top.Some? {
          var (rank, place) := top.value;
          var v := RoundVote(cfg.chainID, LastHash(chain), |chain| + 1, place, rank.address, rank.publicHash, env.now,
            false);
          outbox := outbox + {Broadcast(RoundVoteMessage(v, Sign(me, OfRoundVote(v))))};
          round := round.(failCount := 0);
        }
      } else if round.state == BlockVoting && round.target in round.blocks && round.blocks[round.target].gen.Some? {
        outbox := outbox + {Broadcast(SignedVote(me, round.blocks[round.target].gen.value, false))};
      }
    }
  }
}
