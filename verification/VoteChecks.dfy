/** What an observer has checked before it votes and before it connects, in every run. */
module VoteChecks {
  import opened Options
  import opened ObserverTypes
  import opened ObserverRound
  import opened Agreement

  // ---- when a vote is made ----

  /** The round waits for the block of this height, and has none. */
  predicate Waits(r: Round, h: nat) {
    r.state == BlockWaiting && h == r.target && h in r.blocks && r.blocks[h].gen.None?
  }

  /** The block is by the formulator that the rank table puts at its timeout count, that is the chosen one, and signed
      with the key that both name. */
  predicate ByChosen(cfg: Config, ob: Observer, gen: BlockGen) {
    var h, min := gen.block.header, ob.round.minAck;
    && h.timeoutCount.Some? && h.timeoutCount.value < |cfg.ranks(ob.chain)| && min.Some?
    && var top := cfg.ranks(ob.chain)[h.timeoutCount.value];
    && h.generator == top.address == min.value.formulator
    && gen.genSig.payload == OfHeader(h) && gen.genSig.signer == top.publicHash == min.value.formulatorKey
  }

  /** No other block of this height is waiting. */
  predicate NotForked(r: Round, h: Header) {
    h.height in r.blocks && r.blocks[h.height].genWait.Some? ==> r.blocks[h.height].genWait.value.block.header == h
  }

  /** All that is asked of a block before an observer votes for it. */
  predicate MayVote(cfg: Config, env: Env, ob: Observer, gen: BlockGen) {
    var h := gen.block.header;
    && Waits(ob.round, h.height) && ByChosen(cfg, ob, gen) && NotForked(ob.round, h)
    && ValidHeader(cfg, ob.chain, h) && h.timestamp <= env.now + TEN_SECONDS
    && cfg.executes(ob.chain, gen.block)
  }

  lemma AcceptedIff(cfg: Config, env: Env, ob: Observer, gen: BlockGen)
    ensures HandleBlockGen(cfg, env, ob, gen).code == Ok <==> MayVote(cfg, env, ob, gen)
  {
  }

  /** A signature under a header. */
  ghost predicate SignsHeader(outs: set<Output>, h: Header) {
    exists s :: s in AllMade(outs) && s.payload.OfBlockSign? && s.payload.header == h
  }

  lemma SignsOnlyVoted(outs: set<Output>, me: Key, voted: Option<Header>, h: Header)
    requires Signs(outs, me, voted) && SignsHeader(outs, h)
    ensures voted == Some(h)
  {
    var s :| s in AllMade(outs) && s.payload.OfBlockSign? && s.payload.header == h;
    var o :| o in outs && s in Made(o);
    assert SignsOnly(o, me, voted);
  }

  /** Every other message makes an observer repeat at most the vote that it has cast. */
  lemma OthersRepeat(cfg: Config, env: Env, ob: Observer, from: Key, m: Message)
    requires RoundInv(ob) && !m.BlockGenMessage?
    ensures Signs(Handle(cfg, env, ob, from, m).outs, ob.me, Voted(ob))
  {
    match m
    case RoundVoteMessage(v, sig) => RoundVoteSigns(cfg, env, ob, from, v, RoundVoteCode(cfg, ob, from, v, sig));
    case AckMessage(a, sig) => AckSigns(cfg, env, ob, from, a, AckCode(cfg, ob, from, a, sig));
    case SetupMessage(a, sig) => SetupSigns(ob, from, a, SetupCode(cfg, ob, from, a, sig));
    case BlockVoteMessage(v, sig) => BlockVoteSigns(cfg, env, ob, from, v, sig);
    case BlockMessage(b) =>
  }

  lemma NewVoteSigned(ob: Observer, gen: BlockGen, outs: set<Output>)
    requires Broadcast(SignedVote(ob.me, gen, false)) in outs
    ensures SignsHeader(outs, gen.block.header)
  {
    var s := Sign(ob.me, OfBlockSign(gen.block.header, gen.genSig));
    assert s in MadeIn(SignedVote(ob.me, gen, false));
    assert s in Made(Broadcast(SignedVote(ob.me, gen, false)));
  }

  lemma GenSigns(cfg: Config, env: Env, ob: Observer, gen: BlockGen, st: Step, h: Header)
    requires st == HandleBlockGen(cfg, env, ob, gen)
    ensures SignsHeader(st.outs, h) <==> MayVote(cfg, env, ob, gen) && h == gen.block.header
  {
    AcceptedIff(cfg, env, ob, gen);
    if st.code == Ok {
      NewVoteSigned(ob, gen, st.outs);
      BlockGenSigns(ob, gen, st.code);
      if SignsHeader(st.outs, h) { SignsOnlyVoted(st.outs, ob.me, Voted(st.ob), h); }
    }
  }

  lemma SyncedOuts(outs: set<Output>, more: set<Output>, h: Header)
    requires forall o :: o in outs ==> Made(o) == {}
    ensures SignsHeader(outs + more, h) <==> SignsHeader(more, h)
  {
    assert AllMade(outs + more) == AllMade(more);
  }

  /** For an observer that has not voted at its height: a delivery makes it sign a header if and only if it brings a
      block with that header that passes every check, its execution among them. */
  lemma FirstVoteIff(cfg: Config, env: Env, ob: Observer, from: Key, m: Message, w: Observer, h: Header)
    requires RoundInv(ob) && Sync(cfg, ob).code == Ok && w == Sync(cfg, ob).ob && Voted(w).None?
    ensures SignsHeader(Receive(cfg, env, ob, from, m).outs, h) <==>
      m.BlockGenMessage? && h == m.gen.block.header && MayVote(cfg, env, w, m.gen)
    ensures w.chain == ob.chain && w.round.target == |ob.chain| + 1
  {
    SyncKeeps(cfg, ob);
    var st := Handle(cfg, env, w, from, m);
    SyncedOuts(Sync(cfg, ob).outs, st.outs, h);
    if m.BlockGenMessage? {
      GenSigns(cfg, env, w, m.gen, st, h);
    } else {
      OthersRepeat(cfg, env, w, from, m);
      if SignsHeader(st.outs, h) { SignsOnlyVoted(st.outs, w.me, None, h); }
    }
  }

  // ---- what every event keeps ----

  /** The block that the observer has voted for runs on its chain. */
  ghost predicate VoteRuns(cfg: Config, ob: Observer) {
    Voted(ob).Some? && ob.round.target == |ob.chain| + 1 ==>
      && cfg.executes(ob.chain, ob.round.blocks[ob.round.target].gen.value.block)
      && ValidHeader(cfg, ob.chain, Voted(ob).value)
  }

  /** Block `i` has a valid header on the chain before it, it could be saved there, and a block with this header and
      this body has been executed there. */
  ghost predicate BlockRuns(cfg: Config, chain: seq<Block>, i: nat)
    requires i < |chain|
  {
    var before, b := chain[..i], chain[i];
    && ValidHeader(cfg, before, b.header) && cfg.connects(before, b)
    && exists sigs :: cfg.executes(before, Block(b.header, b.body, sigs))
  }

  ghost predicate ChainRuns(cfg: Config, chain: seq<Block>) {
    forall i :: 0 <= i < |chain| ==> BlockRuns(cfg, chain, i)
  }

  ghost predicate Checked(cfg: Config, ob: Observer) {
    RoundInv(ob) && VoteRuns(cfg, ob) && ChainRuns(cfg, ob.chain)
  }

  lemma GrownRuns(cfg: Config, chain: seq<Block>, b: Block, sigs: seq<Signature>)
    requires ChainRuns(cfg, chain) && ValidHeader(cfg, chain, b.header) && cfg.connects(chain, b)
    requires cfg.executes(chain, Block(b.header, b.body, sigs))
    ensures ChainRuns(cfg, chain + [b])
  {
    var more := chain + [b];
    forall i | 0 <= i < |more| ensures BlockRuns(cfg, more, i) {
      if i < |chain| {
        assert more[..i] == chain[..i] && more[i] == chain[i];
        assert BlockRuns(cfg, chain, i);
      } else {
        assert more[..i] == chain;
      }
    }
  }

  lemma SyncChecked(cfg: Config, ob: Observer)
    requires Checked(cfg, ob)
    ensures Checked(cfg, Sync(cfg, ob).ob)
  {
    SyncKeeps(cfg, ob);
  }

  /** An event that changes neither chain nor generated blocks, or ends without a vote. */
  lemma SameVote(cfg: Config, a: Observer, b: Observer)
    requires Checked(cfg, a) && RoundInv(b) && b.chain == a.chain
    requires Voted(b).None? || (b.round.target == a.round.target && a.round.state == BlockVoting &&
      b.round.target in a.round.blocks && a.round.blocks[b.round.target].gen == b.round.blocks[b.round.target].gen)
    ensures Checked(cfg, b)
  {
  }

  lemma ConnectChecked(cfg: Config, env: Env, ob: Observer)
    requires Checked(cfg, ob) && VoteLands(ob.round, ob.round.target) && ob.round.target == |ob.chain| + 1
    ensures Checked(cfg, AfterBlockVote(cfg, env, ob).ob)
  {
    AfterBlockVoteMoves(cfg, env, ob);
    var b := VotedBlock(env, ob);
    var gen := ob.round.blocks[ob.round.target].gen.value;
    assert Voted(ob) == Some(gen.block.header) && gen.block == Block(b.header, b.body, gen.block.sigs);
    if cfg.connects(ob.chain, b) { GrownRuns(cfg, ob.chain, b, gen.block.sigs); }
  }

  lemma BlockVoteChecked(cfg: Config, env: Env, ob: Observer, from: Key, v: BlockVote, sig: Signature)
    requires Checked(cfg, ob) && ob.round.target == |ob.chain| + 1
    ensures Checked(cfg, HandleBlockVote(cfg, env, ob, from, v, sig).ob)
  {
    if VoteLands(ob.round, v.header.height) {
      LandChecked(cfg, env, ob, from, v);
    } else if VoteEarly(ob.round, v.header.height) {
      KeepVoteMoves(env, ob, from, v, sig);
      SameVote(cfg, ob, KeepVote(env, ob, from, v, sig));
    }
  }

  lemma LandChecked(cfg: Config, env: Env, ob: Observer, from: Key, v: BlockVote)
    requires Checked(cfg, ob) && ob.round.target == |ob.chain| + 1 && VoteLands(ob.round, v.header.height)
    ensures Checked(cfg, LandVote(cfg, env, ob, from, v).ob)
  {
    VoteMoves(ob, from, v);
    SameVote(cfg, ob, WithBlockVote(ob, from, v));
    ConnectChecked(cfg, env, WithBlockVote(ob, from, v));
  }

  lemma BlockGenChecked(cfg: Config, env: Env, ob: Observer, gen: BlockGen, st: Step)
    requires Checked(cfg, ob) && st == HandleBlockGen(cfg, env, ob, gen)
    ensures Checked(cfg, st.ob)
  {
    AcceptedIff(cfg, env, ob, gen);
    BlockGenMoves(ob, gen, st.code);
  }

  lemma RoundVoteChecked(cfg: Config, env: Env, ob: Observer, from: Key, v: RoundVote, sig: Signature)
    requires Checked(cfg, ob)
    ensures Checked(cfg, HandleRoundVote(cfg, env, ob, from, v, sig).ob)
  {
    if RoundVoteCode(cfg, ob, from, v, sig) == Ok { RoundVoteMoves(cfg, ob, from, v); }
  }

  lemma AckChecked(cfg: Config, env: Env, ob: Observer, from: Key, a: Ack, sig: Signature)
    requires Checked(cfg, ob)
    ensures Checked(cfg, HandleAck(cfg, env, ob, from, a, sig).ob)
  {
    AckMoves(cfg, env, ob, from, a, sig, AckCode(cfg, ob, from, a, sig));
  }

  lemma HandleChecked(cfg: Config, env: Env, ob: Observer, from: Key, m: Message)
    requires Checked(cfg, ob) && ob.round.target == |ob.chain| + 1
    ensures Checked(cfg, Handle(cfg, env, ob, from, m).ob)
  {
    match m
    case RoundVoteMessage(v, sig) => RoundVoteChecked(cfg, env, ob, from, v, sig);
    case AckMessage(a, sig) => AckChecked(cfg, env, ob, from, a, sig);
    case SetupMessage(a, sig) =>
    case BlockGenMessage(gen) => BlockGenChecked(cfg, env, ob, gen, HandleBlockGen(cfg, env, ob, gen));
    case BlockVoteMessage(v, sig) => BlockVoteChecked(cfg, env, ob, from, v, sig);
    case BlockMessage(b) => SameVote(cfg, ob, HandleBlock(ob, b).ob);
  }

  lemma ReceiveChecked(cfg: Config, env: Env, ob: Observer, from: Key, m: Message)
    requires Checked(cfg, ob)
    ensures Checked(cfg, Receive(cfg, env, ob, from, m).ob)
  {
    SyncKeeps(cfg, ob);
    SyncChecked(cfg, ob);
    if Sync(cfg, ob).code == Ok { HandleChecked(cfg, env, Sync(cfg, ob).ob, from, m); }
  }

  lemma ResetChecked(cfg: Config, ob: Observer)
    requires Checked(cfg, ob)
    ensures Checked(cfg, ResetRound(cfg, ob)) && Checked(cfg, Restart(cfg, ob))
  {
  }

  lemma TickChecked(cfg: Config, env: Env, ob: Observer)
    requires Checked(cfg, ob)
    ensures Checked(cfg, Tick(cfg, env, ob).ob)
  {
    SyncChecked(cfg, ob);
    var s := Sync(cfg, ob).ob;
    var counted := s.(round := s.round.(failCount := s.round.failCount + 1));
    SameVote(cfg, s, counted);
    ResetChecked(cfg, counted);
  }

  lemma QueuedChecked(cfg: Config, ob: Observer)
    requires Checked(cfg, ob)
    ensures Checked(cfg, ConnectQueued(cfg, ob).ob)
  {
    var h := |ob.chain| + 1;
    if h in ob.blockQ {
      var b := ob.blockQ[h];
      if ValidHeader(cfg, ob.chain, b.header) && cfg.executes(ob.chain, b) && cfg.connects(ob.chain, b) {
        assert b == Block(b.header, b.body, b.sigs);
        GrownRuns(cfg, ob.chain, b, b.sigs);
      }
    }
  }

  lemma ActChecked(cfg: Config, ob: Observer, e: Event)
    requires Checked(cfg, ob)
    ensures Checked(cfg, Act(cfg, ob, e).ob)
  {
    match e
    case Deliver(_, env, from, m) => ReceiveChecked(cfg, env, ob, from, m);
    case VoteTimer(_, env) => TickChecked(cfg, env, ob);
    case BlockTimer(_) => QueuedChecked(cfg, ob);
    case RestartOf(_) => ResetChecked(cfg, ob);
  }

  // ---- runs ----

  ghost predicate AllChecked(cfg: Config, w: World) { forall k :: k in w.obs ==> Checked(cfg, w.obs[k]) }

  lemma {:induction false} RunChecked(cfg: Config, w: World, es: seq<Event>)
    requires Init(cfg, w)
    ensures AllChecked(cfg, After(cfg, w, es))
  {
    if es != [] {
      var front, e := es[..|es| - 1], es[|es| - 1];
      RunChecked(cfg, w, front);
      var v := After(cfg, w, front);
      if e.k in v.obs { ActChecked(cfg, v.obs[e.k], e); }
    }
  }

  /** In every run, whatever the network delivers and whoever drops rounds: every block of an observer's chain had a
      valid header on the chain before it, could be saved there, and was executed there, but for its signatures. */
  lemma ChainsExecuted(cfg: Config, w: World, es: seq<Event>, k: Key, i: nat)
    requires Init(cfg, w) && k in After(cfg, w, es).obs && i < |After(cfg, w, es).obs[k].chain|
    ensures BlockRuns(cfg, After(cfg, w, es).obs[k].chain, i)
  {
    RunChecked(cfg, w, es);
    assert Checked(cfg, After(cfg, w, es).obs[k]);
  }

  // ---- every signature ----

  lemma AckUnvoted(cfg: Config, env: Env, ob: Observer, from: Key, a: Ack, sig: Signature, b: Observer)
    requires RoundInv(ob) && b == HandleAck(cfg, env, ob, from, a, sig).ob
    ensures Voted(b).None? || Voted(b) == Voted(ob)
  {
    var code := AckCode(cfg, ob, from, a, sig);
    if code == Ok { SameGensMoves(ob, WithAck(ob, from, a)); } else { SameGensMoves(ob, b); }
  }

  lemma LandUnvoted(cfg: Config, env: Env, ob: Observer, b: Observer)
    requires RoundInv(ob) && VoteLands(ob.round, ob.round.target) && b == AfterBlockVote(cfg, env, ob).ob
    ensures Voted(b).None? || Voted(b) == Voted(ob)
  {
  }

  lemma BlockVoteUnvoted(cfg: Config, env: Env, ob: Observer, from: Key, v: BlockVote, sig: Signature, b: Observer)
    requires RoundInv(ob) && b == HandleBlockVote(cfg, env, ob, from, v, sig).ob
    ensures Voted(b).None? || Voted(b) == Voted(ob)
  {
    if BlockVoteCode(cfg, ob, from, v, sig) == Ok && VoteLands(ob.round, v.header.height) {
      VoteMoves(ob, from, v);
      LandUnvoted(cfg, env, WithBlockVote(ob, from, v), b);
    } else if VoteEarly(ob.round, v.header.height) {
      SameGensMoves(ob, KeepVote(env, ob, from, v, sig));
    }
  }

  /** Only a block makes an observer vote for another header. */
  lemma OthersKeepVote(cfg: Config, env: Env, ob: Observer, from: Key, m: Message, b: Observer)
    requires RoundInv(ob) && !m.BlockGenMessage? && b == Handle(cfg, env, ob, from, m).ob
    ensures Voted(b).None? || Voted(b) == Voted(ob)
  {
    match m
    case RoundVoteMessage(v, sig) =>
    case AckMessage(a, sig) => AckUnvoted(cfg, env, ob, from, a, sig, b);
    case SetupMessage(a, sig) =>
    case BlockVoteMessage(v, sig) => BlockVoteUnvoted(cfg, env, ob, from, v, sig, b);
    case BlockMessage(_) =>
  }

  /** A new vote: the event brings the block, and it runs on the chain. */
  ghost predicate VotesAnew(cfg: Config, ob: Observer, e: Event, h: Header) {
    && e.Deliver? && e.m.BlockGenMessage? && e.m.gen.block.header == h
    && cfg.executes(ob.chain, e.m.gen.block) && ValidHeader(cfg, ob.chain, h)
  }

  ghost predicate Endorses(st: Step, h: Header) { SignsHeader(st.outs, h) || Voted(st.ob) == Some(h) }

  lemma HandleEndorses(cfg: Config, env: Env, ob: Observer, from: Key, m: Message, st: Step, h: Header)
    requires RoundInv(ob) && st == Handle(cfg, env, ob, from, m) && Endorses(st, h)
    ensures Voted(ob) == Some(h) || (m.BlockGenMessage? && m.gen.block.header == h && MayVote(cfg, env, ob, m.gen))
  {
    if m.BlockGenMessage? {
      GenSigns(cfg, env, ob, m.gen, st, h);
      AcceptedIff(cfg, env, ob, m.gen);
    } else {
      OthersRepeat(cfg, env, ob, from, m);
      OthersKeepVote(cfg, env, ob, from, m, st.ob);
      if SignsHeader(st.outs, h) { SignsOnlyVoted(st.outs, ob.me, Voted(ob), h); }
    }
  }

  lemma SyncVote(cfg: Config, ob: Observer, b: Observer)
    requires RoundInv(ob) && b == Sync(cfg, ob).ob
    ensures Voted(b).None? || Voted(b) == Voted(ob)
  {
  }

  lemma ReceiveEndorses(cfg: Config, env: Env, ob: Observer, from: Key, m: Message, st: Step, e: Event, h: Header)
    requires RoundInv(ob) && st == Receive(cfg, env, ob, from, m) && Endorses(st, h)
    requires e.Deliver? && e.m == m
    ensures Voted(ob) == Some(h) || VotesAnew(cfg, ob, e, h)
  {
    var s := Sync(cfg, ob);
    SyncKeeps(cfg, ob);
    SyncVote(cfg, ob, s.ob);
    if s.code == Ok {
      var t := Handle(cfg, env, s.ob, from, m);
      SyncedOuts(s.outs, t.outs, h);
      HandleEndorses(cfg, env, s.ob, from, m, t, h);
    } else {
      QuietEndorses(s, ob, h);
    }
  }

  lemma RepeatEndorses(cfg: Config, env: Env, ob: Observer, st: Step, h: Header)
    requires RoundInv(ob) && st == Repeat(cfg, env, ob) && Endorses(st, h)
    ensures Voted(ob) == Some(h)
  {
    assert Signs(st.outs, ob.me, Voted(ob));
    if SignsHeader(st.outs, h) { SignsOnlyVoted(st.outs, ob.me, Voted(ob), h); }
  }

  lemma CountedEndorses(cfg: Config, env: Env, ob: Observer, counted: Observer, t: Step, h: Header)
    requires RoundInv(ob) && counted == ob.(round := ob.round.(failCount := ob.round.failCount + 1)) && Endorses(t, h)
    requires t == Repeat(cfg, env, counted) || t == Repeat(cfg, env, ResetRound(cfg, counted))
    ensures Voted(ob) == Some(h)
  {
    SameGensMoves(ob, counted);
    if t == Repeat(cfg, env, counted) {
      RepeatEndorses(cfg, env, counted, t, h);
    } else {
      RepeatEndorses(cfg, env, ResetRound(cfg, counted), t, h);
    }
  }

  lemma QuietEndorses(s: Step, ob: Observer, h: Header)
    requires (forall o :: o in s.outs ==> Made(o) == {}) && Endorses(s, h)
    requires Voted(s.ob).None? || Voted(s.ob) == Voted(ob)
    ensures Voted(ob) == Some(h)
  {
    SyncedOuts(s.outs, {}, h);
    assert s.outs + {} == s.outs && AllMade({}) == {};
  }

  lemma TickEndorses(cfg: Config, env: Env, ob: Observer, st: Step, h: Header)
    requires RoundInv(ob) && st == Tick(cfg, env, ob) && Endorses(st, h)
    ensures Voted(ob) == Some(h)
  {
    var s := Sync(cfg, ob);
    SyncKeeps(cfg, ob);
    SyncVote(cfg, ob, s.ob);
    if s.code != Ok || env.formulators == {} {
      QuietEndorses(s, ob, h);
    } else {
      var counted := s.ob.(round := s.ob.round.(failCount := s.ob.round.failCount + 1));
      var late := counted.round.failCount > MAX_VOTE_FAIL;
      var blamed := if counted.round.minAck.Some? then {counted.round.minAck.value.formulator} else {};
      var env' := if late then env.(formulators := env.formulators - blamed) else env;
      var t := Repeat(cfg, env', if late then ResetRound(cfg, counted) else counted);
      assert st == Step(t.ob, s.outs + t.outs, Ok);
      SyncedOuts(s.outs, t.outs, h);
      CountedEndorses(cfg, env', s.ob, counted, t, h);
    }
  }

  lemma ActEndorses(cfg: Config, ob: Observer, e: Event, st: Step, h: Header)
    requires RoundInv(ob) && st == Act(cfg, ob, e) && Endorses(st, h)
    ensures Voted(ob) == Some(h) || VotesAnew(cfg, ob, e, h)
  {
    match e
    case Deliver(_, env, from, m) => ReceiveEndorses(cfg, env, ob, from, m, st, e, h);
    case VoteTimer(_, env) => TickEndorses(cfg, env, ob, st, h);
    case BlockTimer(_) => QuietEndorses(st, ob, h);
    case RestartOf(_) => QuietEndorses(st, ob, h);
  }

  /** An event makes an observer sign only the header it has voted for already, or that of a block that it is given and
      that runs on its chain, and it connects only blocks that do. */
  ghost predicate Careful(cfg: Config, was: Observer, now: Observer, sent: set<Output>, e: Event) {
    && (RoundInv(was) ==> forall h :: SignsHeader(sent, h) ==> Voted(was) == Some(h) || VotesAnew(cfg, was, e, h))
    && (Checked(cfg, was) ==> Checked(cfg, now))
  }

  lemma ActIsCareful(cfg: Config, was: Observer, e: Event, st: Step)
    requires st == Act(cfg, was, e)
    ensures Careful(cfg, was, st.ob, st.outs, e)
  {
    if RoundInv(was) {
      forall h | SignsHeader(st.outs, h) ensures Voted(was) == Some(h) || VotesAnew(cfg, was, e, h) {
        ActEndorses(cfg, was, e, st, h);
      }
    }
    if Checked(cfg, was) { ActChecked(cfg, was, e); }
  }

  /** At event `i` of the run observer `k` was given a block with header `h` that runs on the chain it had then. */
  ghost predicate RanAt(cfg: Config, w: World, es: seq<Event>, k: Key, h: Header, i: nat) {
    && i < |es| && es[i].k == k && k in After(cfg, w, es[..i]).obs
    && VotesAnew(cfg, After(cfg, w, es[..i]).obs[k], es[i], h)
  }

  ghost predicate Ran(cfg: Config, w: World, es: seq<Event>, k: Key, h: Header) {
    exists i :: RanAt(cfg, w, es, k, h, i)
  }

  lemma RanBefore(cfg: Config, w: World, es: seq<Event>, k: Key, h: Header, front: seq<Event>)
    requires es != [] && front == es[..|es| - 1] && Ran(cfg, w, front, k, h)
    ensures Ran(cfg, w, es, k, h)
  {
    var i: nat :| RanAt(cfg, w, front, k, h, i);
    assert i < |front|;
    assert front[..i] == es[..i] && front[i] == es[i];
    assert RanAt(cfg, w, es, k, h, i);
  }

  ghost predicate VotesRan(cfg: Config, w: World, es: seq<Event>) {
    var v := After(cfg, w, es);
    && (forall k :: k in v.obs && Voted(v.obs[k]).Some? ==> Ran(cfg, w, es, k, Voted(v.obs[k]).value))
    && forall s :: s in v.signed && s.payload.OfBlockSign? ==> Ran(cfg, w, es, s.signer, s.payload.header)
  }

  lemma EndorsedRan(cfg: Config, w: World, es: seq<Event>, front: seq<Event>, e: Event, v: World, st: Step, h: Header)
    requires es != [] && front == es[..|es| - 1] && e == es[|es| - 1] && v == After(cfg, w, front) && e.k in v.obs
    requires VotesRan(cfg, w, front) && RoundInv(v.obs[e.k]) && st == Act(cfg, v.obs[e.k], e) && Endorses(st, h)
    ensures Ran(cfg, w, es, e.k, h)
  {
    ActEndorses(cfg, v.obs[e.k], e, st, h);
    if Voted(v.obs[e.k]) == Some(h) {
      RanBefore(cfg, w, es, e.k, h, front);
    } else {
      assert RanAt(cfg, w, es, e.k, h, |es| - 1);
    }
  }

  lemma NeverAtZero(cfg: Config, w: World, es: seq<Event>)
    ensures Remembers(cfg, 0, w, es)
  {
  }

  lemma LegalFront(cfg: Config, w: World, es: seq<Event>, front: seq<Event>)
    requires LegalRun(cfg, w, es) && es != [] && front == es[..|es| - 1]
    ensures LegalRun(cfg, w, front) && Legal(cfg, After(cfg, w, front), es[|es| - 1])
  {
    assert forall i :: 0 <= i < |front| ==> front[..i] == es[..i] && front[i] == es[i];
  }

  /** A header that an observer votes for or signs at the last event. */
  ghost predicate LastRan(cfg: Config, w: World, es: seq<Event>, e: Event, st: Step) {
    forall h :: Endorses(st, h) ==> Ran(cfg, w, es, e.k, h)
  }

  lemma VotersRan(cfg: Config, w: World, es: seq<Event>, front: seq<Event>, e: Event, v: World, st: Step, k: Key)
    requires es != [] && front == es[..|es| - 1] && v == After(cfg, w, front) && e.k in v.obs
    requires VotesRan(cfg, w, front) && LastRan(cfg, w, es, e, st)
    requires k in v.obs && Voted(v.obs[e.k := st.ob][k]).Some?
    ensures Ran(cfg, w, es, k, Voted(v.obs[e.k := st.ob][k]).value)
  {
    if k == e.k {
      assert Endorses(st, Voted(st.ob).value);
    } else {
      RanBefore(cfg, w, es, k, Voted(v.obs[k]).value, front);
    }
  }

  lemma SignersRan(cfg: Config, w: World, es: seq<Event>, front: seq<Event>, e: Event, v: World, st: Step, s: Signature)
    requires es != [] && front == es[..|es| - 1] && v == After(cfg, w, front) && e.k in v.obs
    requires VotesRan(cfg, w, front) && LastRan(cfg, w, es, e, st)
    requires s.payload.OfBlockSign? && (s in v.signed || (s in AllMade(st.outs) && s.signer == e.k))
    ensures Ran(cfg, w, es, s.signer, s.payload.header)
  {
    if s in v.signed {
      RanBefore(cfg, w, es, s.signer, s.payload.header, front);
    } else {
      assert SignsHeader(st.outs, s.payload.header);
      assert Endorses(st, s.payload.header);
    }
  }

  lemma StepRan(cfg: Config, w: World, es: seq<Event>, front: seq<Event>, e: Event, v: World, st: Step)
    requires es != [] && front == es[..|es| - 1] && e == es[|es| - 1] && v == After(cfg, w, front) && e.k in v.obs
    requires VotesRan(cfg, w, front) && LastRan(cfg, w, es, e, st) && st == Act(cfg, v.obs[e.k], e)
    requires forall s :: s in AllMade(st.outs) ==> s.signer == e.k
    ensures VotesRan(cfg, w, es)
  {
    var u := After(cfg, w, es);
    assert u == World(v.obs[e.k := st.ob], v.signed + AllMade(st.outs));
    forall k | k in u.obs && Voted(u.obs[k]).Some? ensures Ran(cfg, w, es, k, Voted(u.obs[k]).value) {
      VotersRan(cfg, w, es, front, e, v, st, k);
    }
    forall s | s in u.signed && s.payload.OfBlockSign? ensures Ran(cfg, w, es, s.signer, s.payload.header) {
      SignersRan(cfg, w, es, front, e, v, st, s);
    }
  }

  lemma LastEventRan(cfg: Config, w: World, es: seq<Event>, front: seq<Event>, e: Event, v: World, st: Step)
    requires es != [] && front == es[..|es| - 1] && e == es[|es| - 1] && v == After(cfg, w, front)
    requires VotesRan(cfg, w, front) && WorldInv(cfg, 0, v) && Legal(cfg, v, e) && st == Act(cfg, v.obs[e.k], e)
    ensures LastRan(cfg, w, es, e, st) && forall s :: s in AllMade(st.outs) ==> s.signer == e.k
  {
    assert ObserverInv(cfg, 0, e.k, v.obs[e.k], v.signed);
    ActKeeps(cfg, 0, v.obs[e.k], e, v.signed);
    forall h | Endorses(st, h) ensures Ran(cfg, w, es, e.k, h) {
      EndorsedRan(cfg, w, es, front, e, v, st, h);
    }
  }

  /** In every run, also where observers drop rounds: whatever header an observer has signed, it was given a block with
      it before, and that block had a valid header and ran to its context hash on the chain that it had then. */
  lemma {:induction false} SignedAreExecuted(cfg: Config, w: World, es: seq<Event>)
    requires Init(cfg, w) && LegalRun(cfg, w, es)
    ensures VotesRan(cfg, w, es)
  {
    if es != [] {
      var front := es[..|es| - 1];
      LegalFront(cfg, w, es, front);
      SignedAreExecuted(cfg, w, front);
      NeverAtZero(cfg, w, front);
      RunKeeps(cfg, 0, w, front);
      var e, v := es[|es| - 1], After(cfg, w, front);
      LastEventRan(cfg, w, es, front, e, v, Act(cfg, v.obs[e.k], e));
      StepRan(cfg, w, es, front, e, v, Act(cfg, v.obs[e.k], e));
    }
  }
}
