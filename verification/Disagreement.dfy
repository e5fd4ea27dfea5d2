/** Why agreement needs its condition: a legal run of three observers in which one of them drops its
    round after voting, and two observers connect different blocks at the same height. */
module Disagreement {
  import opened Options
  import opened ObserverTypes
  import opened ObserverRound
  import opened Agreement

  // ---- three observers, one formulator ----

  ghost function Cfg(): Config {
    Config({0, 1, 2}, 1, 1, 1, _ => [Rank(9, 9)], _ => 0, (_, _) => true, (_, _) => true)
  }

  ghost function Now(): Env { Env(5, {9}, {}, [0, 1]) }

  ghost function Fresh(k: Key): Observer { Observer(k, [], NewVoteRound(1, 1), map[]) }

  ghost function V(): RoundVote { RoundVote(1, GenesisHash, 1, 0, 9, 9, 5, false) }

  ghost function A(): Ack { Ack(1, GenesisHash, 1, 0, 9, 9, 0, 5, false) }

  /** The formulator signs a block for every `c`. */
  ghost function X(c: nat): Header { Header(1, 1, 1, GenesisHash, 1, 9, Some(0), c) }

  ghost function G(c: nat): BlockGen { BlockGen(Block(X(c), c, []), Signature(9, OfHeader(X(c)), 0)) }

  ghost function VoteMsg(k: Key): Message { RoundVoteMessage(V(), Sign(k, OfRoundVote(V()))) }

  ghost function AckMsg(k: Key): Message { AckMessage(A(), Sign(k, OfAck(A()))) }

  // ---- the stages one observer goes through ----

  ghost function Heard(k: Key, votes: map<Key, RoundVote>): Observer {
    Fresh(k).(round := Fresh(k).round.(roundVotes := votes))
  }

  ghost function Acking(k: Key, acks: map<Key, Ack>): Observer {
    var heard := Heard(k, map[0 := V(), 1 := V(), 2 := V()]);
    heard.(round := heard.round.(state := AckVoting, minVote := 0, acks := acks))
  }

  ghost function Waiting(k: Key): Observer {
    var ob := Acking(k, map[0 := A(), 1 := A()]);
    ob.(round := ob.round.(state := BlockWaiting, minAck := Some(A())))
  }

  ghost function Voting(k: Key, c: nat, votes: map<Key, BlockVote>, fails: nat): Observer {
    var ob := Waiting(k);
    ob.(round := ob.round.(state := BlockVoting, failCount := fails,
                           blocks := map[1 := BlockRound(votes, Some(G(c)), map[], None)]))
  }

  lemma FreshBlocks(k: Key)
    ensures Fresh(k).round.blocks == map[1 := BlockRound(map[], None, map[], None)]
  {
  }

  lemma SyncIdle(ob: Observer)
    requires ob.chain == [] && ob.round.target == 1
    ensures Sync(Cfg(), ob) == Step(ob, {}, Ok)
  {
  }

  lemma TopIs9(chain: seq<Block>)
    ensures TopRank(Cfg(), chain, 0) == Some(Rank(9, 9))
    ensures TopRankInMap(Cfg(), chain, {9}) == Some((Rank(9, 9), 0))
    ensures TopRankInMap(Cfg(), chain, {}) == None
  {
    assert Cfg().ranks(chain) == [Rank(9, 9)];
  }

  lemma TickFresh(k: Key)
    ensures Tick(Cfg(), Now(), Fresh(k)).ob == Fresh(k)
    ensures Broadcast(VoteMsg(k)) in Tick(Cfg(), Now(), Fresh(k)).outs
  {
    SyncIdle(Fresh(k));
    TopIs9([]);
  }

  lemma HearVote(k: Key, from: Key, votes: map<Key, RoundVote>)
    requires from in {0, 1, 2} && from !in votes && |votes| < 2
    ensures Receive(Cfg(), Now(), Heard(k, votes), from, VoteMsg(from)).ob == Heard(k, votes[from := V()])
  {
    SyncIdle(Heard(k, votes));
    TopIs9([]);
    assert |votes[from := V()]| == |votes| + 1;
    assert RoundVoteCode(Cfg(), Heard(k, votes), from, V(), Sign(from, OfRoundVote(V()))) == Ok;
  }

  lemma MinIs0(votes: map<Key, RoundVote>)
    requires votes == map[0 := V(), 1 := V(), 2 := V()]
    ensures MinVote(votes) == 0
  {
    assert IsMinVote(votes, 0);
    var k := MinVote(votes);
    assert IsMinVote(votes, k);
  }

  lemma HearLastVote(k: Key)
    ensures var st := Receive(Cfg(), Now(), Heard(k, map[0 := V(), 1 := V()]), 2, VoteMsg(2));
      st.ob == Acking(k, map[]) && Broadcast(AckMsg(k)) in st.outs
  {
    var ob := Heard(k, map[0 := V(), 1 := V()]);
    SyncIdle(ob);
    TopIs9([]);
    var votes := map[0 := V(), 1 := V(), 2 := V()];
    MinIs0(votes);
    assert ob.round.roundVotes[2 := V()] == votes;
    assert |votes| == 3;
    assert RoundVoteCode(Cfg(), ob, 2, V(), Sign(2, OfRoundVote(V()))) == Ok;
  }

  lemma AckAccepted(k: Key, acks: map<Key, Ack>, from: Key)
    requires from in {0, 1, 2} && from !in acks
    ensures AckCode(Cfg(), Acking(k, acks), from, A(), Sign(from, OfAck(A()))) == Ok
  {
    TopIs9([]);
  }

  lemma AckLanded(ob: Observer, from: Key, a: Ack, sig: Signature)
    requires AckCode(Cfg(), ob, from, a, sig) == Ok && Sync(Cfg(), ob) == Step(ob, {}, Ok)
    ensures Receive(Cfg(), Now(), ob, from, AckMessage(a, sig)).ob == SettleAck(Cfg(), Now(), WithAck(ob, from, a))
  {
  }

  lemma HearAck(k: Key)
    ensures Receive(Cfg(), Now(), Acking(k, map[]), 0, AckMsg(0)).ob == Acking(k, map[0 := A()])
  {
    SyncIdle(Acking(k, map[]));
    AckAccepted(k, map[], 0);
    AckLanded(Acking(k, map[]), 0, A(), Sign(0, OfAck(A())));
  }

  lemma ChooseA()
    ensures ChooseAck(map[0 := A(), 1 := A()], [0, 1], 2, 0) == Some(A())
  {
    var acks := map[0 := A(), 1 := A()];
    var p := [0, 1];
    assert p[..1] == [0] && p[..2] == p;
    assert Seen(p, 1) == {0} && Seen(p, 2) == {0, 1};
    assert TimeoutBackers(acks, {0}, 0) == {0} && TimeoutBackers(acks, {0, 1}, 0) == {0, 1};
    assert ChosenBackers(acks, {0, 1}, 0) == {0, 1};
    assert ChooseAck(acks, p, 2, 1) == Some(A());
  }

  lemma LastAckSettles(k: Key, acked: Observer)
    requires acked == Acking(k, map[0 := A(), 1 := A()])
    ensures SettleAck(Cfg(), Now(), acked) == Waiting(k)
  {
    FreshBlocks(k);
    ChooseA();
    assert |acked.round.acks| == 2;
    assert BlocksFor(Cfg(), acked, A()) == acked.round.blocks;
  }

  lemma HearLastAck(k: Key)
    ensures Receive(Cfg(), Now(), Acking(k, map[0 := A()]), 1, AckMsg(1)).ob == Waiting(k)
  {
    var ob := Acking(k, map[0 := A()]);
    SyncIdle(ob);
    AckAccepted(k, map[0 := A()], 1);
    AckLanded(ob, 1, A(), Sign(1, OfAck(A())));
    assert WithAck(ob, 1, A()).round.acks == map[0 := A(), 1 := A()];
    LastAckSettles(k, WithAck(ob, 1, A()));
  }

  lemma HearBlock(k: Key, c: nat)
    ensures var st := Receive(Cfg(), Now(), Waiting(k), 0, BlockGenMessage(G(c)));
      st.ob == Voting(k, c, map[], 0) && Broadcast(SignedVote(k, G(c), false)) in st.outs
  {
    SyncIdle(Waiting(k));
    TopIs9([]);
    FreshBlocks(k);
    assert BlockGenCode(Cfg(), Now(), Waiting(k), G(c)) == Ok;
  }

  ghost function VoteOf(k: Key, c: nat): BlockVote {
    BlockVote(1, X(c), G(c).genSig, Sign(k, OfBlockSign(X(c), G(c).genSig)), false)
  }

  lemma VoteAccepted(k: Key, c: nat, votes: map<Key, BlockVote>, from: Key)
    requires from in {0, 1, 2} && from !in votes
    ensures BlockVoteCode(Cfg(), Voting(k, c, votes, 0), from, VoteOf(from, c),
      Sign(from, OfBlockVote(VoteOf(from, c)))) == Ok
  {
    TopIs9([]);
  }

  lemma FirstVoteLands(k: Key, c: nat, from: Key)
    ensures LandVote(Cfg(), Now(), Voting(k, c, map[], 0), from, VoteOf(from, c)).ob
            == Voting(k, c, map[from := VoteOf(from, c)], 0)
  {
    var voted := WithBlockVote(Voting(k, c, map[], 0), from, VoteOf(from, c));
    assert voted.round.blocks[1].votes == map[from := VoteOf(from, c)];
    assert |voted.round.blocks[1].votes| == 1;
  }

  lemma HearBlockVote(k: Key, c: nat, from: Key)
    requires from in {0, 1, 2}
    ensures Receive(Cfg(), Now(), Voting(k, c, map[], 0), from, SignedVote(from, G(c), false)).ob
            == Voting(k, c, map[from := VoteOf(from, c)], 0)
  {
    var ob := Voting(k, c, map[], 0);
    SyncIdle(ob);
    VoteAccepted(k, c, map[], from);
    VoteLanded(ob, from, VoteOf(from, c), Sign(from, OfBlockVote(VoteOf(from, c))));
    FirstVoteLands(k, c, from);
  }

  lemma LastVoteConnects(k: Key, c: nat, other: Key, from: Key)
    requires from != other
    ensures var st := LandVote(Cfg(), Now(), Voting(k, c, map[other := VoteOf(other, c)], 0), from, VoteOf(from, c));
      |st.ob.chain| == 1 && st.ob.chain[0].header == X(c)
  {
    var voted := WithBlockVote(Voting(k, c, map[other := VoteOf(other, c)], 0), from, VoteOf(from, c));
    assert voted.round.blocks[1].votes == map[other := VoteOf(other, c), from := VoteOf(from, c)];
    assert |voted.round.blocks[1].votes| == 2;
    TopIs9([] + [VotedBlock(Now(), voted)]);
    assert ConnectCode(Cfg(), Now(), voted, VotedBlock(Now(), voted)) == Ok;
  }

  ghost predicate Connected(ob: Observer, c: nat) { |ob.chain| == 1 && ob.chain[0].header == X(c) }

  lemma HearLastBlockVote(k: Key, c: nat, other: Key, from: Key) returns (ob: Observer)
    requires from in {0, 1, 2} && from != other
    ensures Connected(ob, c)
    ensures Receive(Cfg(), Now(), Voting(k, c, map[other := VoteOf(other, c)], 0), from,
      SignedVote(from, G(c), false)).ob == ob
  {
    var was := Voting(k, c, map[other := VoteOf(other, c)], 0);
    ob := LandVote(Cfg(), Now(), was, from, VoteOf(from, c)).ob;
    SyncIdle(was);
    VoteAccepted(k, c, map[other := VoteOf(other, c)], from);
    VoteLanded(was, from, VoteOf(from, c), Sign(from, OfBlockVote(VoteOf(from, c))));
    LastVoteConnects(k, c, other, from);
  }

  lemma VoteLanded(ob: Observer, from: Key, v: BlockVote, sig: Signature)
    requires BlockVoteCode(Cfg(), ob, from, v, sig) == Ok && VoteLands(ob.round, v.header.height)
    requires Sync(Cfg(), ob) == Step(ob, {}, Ok)
    ensures Receive(Cfg(), Now(), ob, from, BlockVoteMessage(v, sig)).ob == LandVote(Cfg(), Now(), ob, from, v).ob
  {
  }

  lemma TickVoting(k: Key, c: nat, n: nat)
    requires n <= MAX_VOTE_FAIL
    ensures Tick(Cfg(), Now(), Voting(k, c, map[], n)).ob
            == if n < MAX_VOTE_FAIL then Voting(k, c, map[], n + 1) else Fresh(k)
  {
    var ob := Voting(k, c, map[], n);
    SyncIdle(ob);
    TopIs9([]);
  }

  // ---- the run ----

  /** The world can be reached by a legal run. */
  ghost predicate Reached(w: World) {
    exists start, es :: Init(Cfg(), start) && LegalRun(Cfg(), start, es) && After(Cfg(), start, es) == w
  }

  lemma ReachedStep(w: World, e: Event)
    requires Reached(w) && Legal(Cfg(), w, e)
    ensures Reached(Next(Cfg(), w, e))
  {
    var start, es :| Init(Cfg(), start) && LegalRun(Cfg(), start, es) && After(Cfg(), start, es) == w;
    RunGrows(Cfg(), start, es, e);
  }

  /** A set of worlds that legal events do not leave. */
  ghost predicate Closed(R: World -> bool) {
    forall w, e :: R(w) && Legal(Cfg(), w, e) ==> R(Next(Cfg(), w, e))
  }

  /** One more event: the named observer moves to `ob`, and what it sends is signed. */
  lemma Drive(R: World -> bool, w: World, e: Event, ob: Observer, o: Output) returns (w': World)
    requires Closed(R) && R(w) && Legal(Cfg(), w, e)
    requires Act(Cfg(), w.obs[e.k], e).ob == ob
    requires Made(o) == {} || o in Act(Cfg(), w.obs[e.k], e).outs
    ensures R(w') && w'.obs == w.obs[e.k := ob] && w.signed + Made(o) <= w'.signed
  {
    w' := Next(Cfg(), w, e);
  }

  /** A delivery to observer `k` in stage `ob`. */
  lemma DriveMessage(R: World -> bool, w: World, k: Key, from: Key, m: Message, ob: Observer,
                     o: Output) returns (w': World)
    requires Closed(R) && R(w) && k in w.obs && Deliverable(Cfg(), w.signed, m)
    requires Receive(Cfg(), Now(), w.obs[k], from, m).ob == ob
    requires Made(o) == {} || o in Receive(Cfg(), Now(), w.obs[k], from, m).outs
    ensures R(w') && w'.obs == w.obs[k := ob] && w.signed + Made(o) <= w'.signed
  {
    w' := Drive(R, w, Deliver(k, Now(), from, m), ob, o);
  }

  ghost predicate VotesSent(w: World) { forall k :: k in {0, 1, 2} ==> MadeIn(VoteMsg(k)) <= w.signed }

  lemma DriveTick(R: World -> bool, w: World, k: Key) returns (w': World)
    requires Closed(R) && R(w) && k in w.obs && w.obs[k] == Fresh(k)
    ensures R(w') && w'.obs == w.obs && w.signed + MadeIn(VoteMsg(k)) <= w'.signed
  {
    TickFresh(k);
    w' := Drive(R, w, VoteTimer(k, Now()), Fresh(k), Broadcast(VoteMsg(k)));
  }

  lemma DriveVote(R: World -> bool, w: World, k: Key, from: Key, votes: map<Key, RoundVote>) returns (w': World)
    requires Closed(R) && R(w) && k in w.obs && w.obs[k] == Heard(k, votes) && VotesSent(w)
    requires from in {0, 1, 2} && from !in votes && |votes| < 2
    ensures R(w') && w'.obs == w.obs[k := Heard(k, votes[from := V()])] && w.signed <= w'.signed
  {
    HearVote(k, from, votes);
    w' := DriveMessage(R, w, k, from, VoteMsg(from), Heard(k, votes[from := V()]), Status(0));
  }

  lemma DriveLastVote(R: World -> bool, w: World, k: Key) returns (w': World)
    requires Closed(R) && R(w) && k in w.obs && w.obs[k] == Heard(k, map[0 := V(), 1 := V()]) && VotesSent(w)
    ensures R(w') && w'.obs == w.obs[k := Acking(k, map[])] && w.signed + MadeIn(AckMsg(k)) <= w'.signed
  {
    HearLastVote(k);
    w' := DriveMessage(R, w, k, 2, VoteMsg(2), Acking(k, map[]), Broadcast(AckMsg(k)));
  }

  /** From a fresh round to acknowledging. */
  lemma DriveToAck(R: World -> bool, w: World, k: Key) returns (w': World)
    requires Closed(R) && R(w) && k in w.obs && w.obs[k] == Fresh(k) && VotesSent(w)
    ensures R(w') && w'.obs == w.obs[k := Acking(k, map[])] && w.signed + MadeIn(AckMsg(k)) <= w'.signed
  {
    w' := DriveVote(R, w, k, 0, map[]);
    w' := DriveVote(R, w', k, 1, map[0 := V()]);
    w' := DriveLastVote(R, w', k);
  }

  lemma DriveAck(R: World -> bool, w: World, k: Key) returns (w': World)
    requires Closed(R) && R(w) && k in w.obs && w.obs[k] == Acking(k, map[]) && MadeIn(AckMsg(0)) <= w.signed
    ensures R(w') && w'.obs == w.obs[k := Acking(k, map[0 := A()])] && w.signed <= w'.signed
  {
    HearAck(k);
    w' := DriveMessage(R, w, k, 0, AckMsg(0), Acking(k, map[0 := A()]), Status(0));
  }

  lemma DriveLastAck(R: World -> bool, w: World, k: Key) returns (w': World)
    requires Closed(R) && R(w) && k in w.obs && w.obs[k] == Acking(k, map[0 := A()]) && MadeIn(AckMsg(1)) <= w.signed
    ensures R(w') && w'.obs == w.obs[k := Waiting(k)] && w.signed <= w'.signed
  {
    HearLastAck(k);
    w' := DriveMessage(R, w, k, 1, AckMsg(1), Waiting(k), Status(0));
  }

  lemma DriveBlock(R: World -> bool, w: World, k: Key, c: nat) returns (w': World)
    requires Closed(R) && R(w) && k in w.obs && w.obs[k] == Waiting(k)
    ensures R(w') && w'.obs == w.obs[k := Voting(k, c, map[], 0)]
    ensures w.signed + MadeIn(SignedVote(k, G(c), false)) <= w'.signed
  {
    HearBlock(k, c);
    w' := DriveMessage(R, w, k, 0, BlockGenMessage(G(c)), Voting(k, c, map[], 0),
      Broadcast(SignedVote(k, G(c), false)));
  }

  /** From acknowledging to a vote for block `c`. */
  lemma DriveToVote(R: World -> bool, w: World, k: Key, c: nat) returns (w': World)
    requires Closed(R) && R(w) && k in w.obs && w.obs[k] == Acking(k, map[])
    requires MadeIn(AckMsg(0)) + MadeIn(AckMsg(1)) <= w.signed
    ensures R(w') && w'.obs == w.obs[k := Voting(k, c, map[], 0)]
    ensures w.signed + MadeIn(SignedVote(k, G(c), false)) <= w'.signed
  {
    w' := DriveAck(R, w, k);
    w' := DriveLastAck(R, w', k);
    w' := DriveBlock(R, w', k, c);
  }

  lemma DriveFail(R: World -> bool, w: World, k: Key, c: nat, n: nat) returns (w': World)
    requires Closed(R) && R(w) && k in w.obs && n <= MAX_VOTE_FAIL && w.obs[k] == Voting(k, c, map[], n)
    ensures R(w') && w.signed <= w'.signed
    ensures w'.obs == w.obs[k := if n < MAX_VOTE_FAIL then Voting(k, c, map[], n + 1) else Fresh(k)]
  {
    TickVoting(k, c, n);
    var ob := if n < MAX_VOTE_FAIL then Voting(k, c, map[], n + 1) else Fresh(k);
    w' := Drive(R, w, VoteTimer(k, Now()), ob, Status(0));
  }

  /** The failure reset: twenty-one turns of the vote timer and the round is fresh again. */
  lemma {:induction false} DriveReset(R: World -> bool, w: World, k: Key, c: nat, n: nat) returns (w': World)
    requires Closed(R) && R(w) && k in w.obs && n <= MAX_VOTE_FAIL && w.obs[k] == Voting(k, c, map[], n)
    ensures R(w') && w'.obs == w.obs[k := Fresh(k)] && w.signed <= w'.signed
    decreases MAX_VOTE_FAIL - n
  {
    w' := DriveFail(R, w, k, c, n);
    if n < MAX_VOTE_FAIL { w' := DriveReset(R, w', k, c, n + 1); }
  }

  lemma DriveBlockVote(R: World -> bool, w: World, k: Key, c: nat, a: Key) returns (w': World)
    requires Closed(R) && R(w) && k in w.obs && w.obs[k] == Voting(k, c, map[], 0) && a in {0, 1, 2}
    requires MadeIn(SignedVote(a, G(c), false)) <= w.signed
    ensures R(w') && w.signed <= w'.signed && w'.obs == w.obs[k := Voting(k, c, map[a := VoteOf(a, c)], 0)]
  {
    HearBlockVote(k, c, a);
    w' := DriveMessage(R, w, k, a, SignedVote(a, G(c), false), Voting(k, c, map[a := VoteOf(a, c)], 0), Status(0));
  }

  lemma VoteDeliverable(signed: set<Signature>, k: Key, c: nat)
    requires MadeIn(SignedVote(k, G(c), false)) <= signed
    ensures Deliverable(Cfg(), signed, SignedVote(k, G(c), false))
  {
  }

  lemma DriveLastBlockVote(R: World -> bool, w: World, k: Key, c: nat, a: Key, b: Key) returns (w': World, ob: Observer)
    requires Closed(R) && R(w) && k in w.obs && w.obs[k] == Voting(k, c, map[a := VoteOf(a, c)], 0)
    requires b in {0, 1, 2} && a != b && MadeIn(SignedVote(b, G(c), false)) <= w.signed
    ensures R(w') && w.signed <= w'.signed && w'.obs == w.obs[k := ob] && Connected(ob, c)
  {
    ob := HearLastBlockVote(k, c, a, b);
    VoteDeliverable(w.signed, b, c);
    w' := DriveMessage(R, w, k, b, SignedVote(b, G(c), false), ob, Status(0));
  }

  /** Two votes for block `c` connect it. */
  lemma DriveToConnect(R: World -> bool, w: World, k: Key, c: nat, a: Key, b: Key) returns (w': World, ob: Observer)
    requires Closed(R) && R(w) && k in w.obs && w.obs[k] == Voting(k, c, map[], 0)
    requires a in {0, 1, 2} && b in {0, 1, 2} && a != b
    requires MadeIn(SignedVote(a, G(c), false)) + MadeIn(SignedVote(b, G(c), false)) <= w.signed
    ensures R(w') && w.signed <= w'.signed && w'.obs == w.obs[k := ob] && Connected(ob, c)
  {
    w' := DriveBlockVote(R, w, k, c, a);
    w', ob := DriveLastBlockVote(R, w', k, c, a, b);
  }

  /** A legal run in which observers 0 and 2 connect different headers at height 1: observer 1 votes
      for the first block, drops its round by the failure reset, and votes for the second. */
  lemma Disagree()
    ensures exists start, es ::
      && Init(Cfg(), start) && LegalRun(Cfg(), start, es)
      && 0 in After(Cfg(), start, es).obs && 2 in After(Cfg(), start, es).obs
      && !AgreeUpTo(1, After(Cfg(), start, es), 0, 2)
  {
    var w := World(map[0 := Fresh(0), 1 := Fresh(1), 2 := Fresh(2)], {});
    var R := (w: World) => Reached(w);
    forall w, e | R(w) && Legal(Cfg(), w, e) ensures R(Next(Cfg(), w, e)) { ReachedStep(w, e); }
    assert Init(Cfg(), w) && LegalRun(Cfg(), w, []) && After(Cfg(), w, []) == w;
    w := DriveTick(R, w, 0);
    w := DriveTick(R, w, 1);
    w := DriveTick(R, w, 2);
    w := DriveToAck(R, w, 0);
    w := DriveToAck(R, w, 1);
    w := DriveToVote(R, w, 0, 1);
    w := DriveToVote(R, w, 1, 1);
    var ob;
    w, ob := DriveToConnect(R, w, 0, 1, 0, 1);
    w := DriveReset(R, w, 1, 1, 0);
    w := DriveToAck(R, w, 1);
    w := DriveToVote(R, w, 1, 2);
    w := DriveToAck(R, w, 2);
    w := DriveToVote(R, w, 2, 2);
    w, ob := DriveToConnect(R, w, 2, 2, 1, 2);
    assert !AgreeUpTo(1, w, 0, 2);
    assert Reached(w);
  }
}
