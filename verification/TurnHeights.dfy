/** The heights that an observer waits for after its choice are those that the turn of the formulator has left. */
module TurnHeights {
  import opened Options
  import opened ObserverTypes
  import opened ObserverRound
  import opened Agreement
  import RankOrder
  import RankUpdate
  import RankRotation

  // ---- the heights of a round ----

  /** The round has exactly the `n` heights from `target` on. */
  ghost predicate Covers(blocks: map<nat, BlockRound>, target: nat, n: nat) {
    forall h :: h in blocks <==> target <= h < target + n
  }

  /** Until a formulator is chosen the round has all heights of a whole turn. */
  ghost predicate Fresh(cfg: Config, ob: Observer) {
    ob.round.state == RoundVoting || ob.round.state == AckVoting ==>
      Covers(ob.round.blocks, ob.round.target, cfg.maxBlocks)
  }

  lemma NewIsFresh(cfg: Config, ob: Observer)
    ensures Fresh(cfg, ResetRound(cfg, ob)) && Fresh(cfg, Restart(cfg, ob))
  {
  }

  lemma SyncFresh(cfg: Config, ob: Observer)
    requires Fresh(cfg, ob)
    ensures Fresh(cfg, Sync(cfg, ob).ob)
  {
    NewIsFresh(cfg, ob);
  }

  lemma ConnectFresh(cfg: Config, env: Env, ob: Observer, b: Block, code: Code)
    requires Fresh(cfg, ob)
    ensures Fresh(cfg, ConnectNext(cfg, ob, b, code))
  {
    NewIsFresh(cfg, Grown(ob, b));
  }

  lemma BlockVoteFresh(cfg: Config, env: Env, ob: Observer, from: Key, v: BlockVote, sig: Signature)
    requires Fresh(cfg, ob)
    ensures Fresh(cfg, HandleBlockVote(cfg, env, ob, from, v, sig).ob)
  {
    if VoteLands(ob.round, v.header.height) {
      var voted := WithBlockVote(ob, from, v);
      var b := VotedBlock(env, voted);
      ConnectFresh(cfg, env, voted, b, ConnectCode(cfg, env, voted, b));
    }
  }

  lemma HandleFresh(cfg: Config, env: Env, ob: Observer, from: Key, m: Message)
    requires Fresh(cfg, ob)
    ensures Fresh(cfg, Handle(cfg, env, ob, from, m).ob)
  {
    match m
    case RoundVoteMessage(v, sig) =>
    case AckMessage(a, sig) =>
    case SetupMessage(a, sig) =>
    case BlockGenMessage(gen) =>
    case BlockVoteMessage(v, sig) => BlockVoteFresh(cfg, env, ob, from, v, sig);
    case BlockMessage(b) =>
  }

  lemma TickFresh(cfg: Config, env: Env, ob: Observer)
    requires Fresh(cfg, ob)
    ensures Fresh(cfg, Tick(cfg, env, ob).ob)
  {
    SyncFresh(cfg, ob);
    var s := Sync(cfg, ob).ob;
    NewIsFresh(cfg, s.(round := s.round.(failCount := s.round.failCount + 1)));
  }

  lemma ActFresh(cfg: Config, ob: Observer, e: Event)
    requires Fresh(cfg, ob)
    ensures Fresh(cfg, Act(cfg, ob, e).ob)
  {
    match e
    case Deliver(_, env, from, m) =>
      SyncFresh(cfg, ob);
      if Sync(cfg, ob).code == Ok { HandleFresh(cfg, env, Sync(cfg, ob).ob, from, m); }
    case VoteTimer(_, env) => TickFresh(cfg, env, ob);
    case BlockTimer(_) =>
    case RestartOf(_) => NewIsFresh(cfg, ob);
  }

  /** In every run. */
  lemma {:induction false} RunFresh(cfg: Config, w: World, es: seq<Event>)
    requires Init(cfg, w)
    ensures forall k :: k in After(cfg, w, es).obs ==> Fresh(cfg, After(cfg, w, es).obs[k])
  {
    if es != [] {
      var front, e := es[..|es| - 1], es[|es| - 1];
      RunFresh(cfg, w, front);
      var v := After(cfg, w, front);
      if e.k in v.obs { ActFresh(cfg, v.obs[e.k], e); }
    }
  }

  // ---- what is left of a turn ----

  /** The chain has led to this rank table and this count of blocks. */
  ghost predicate Ranks(cfg: Config, chain: seq<Block>, x: RankUpdate.State) {
    && cfg.blocksBySame(chain) == x.blocks && |cfg.ranks(chain)| == |x.table|
    && forall i :: 0 <= i < |x.table| ==>
         cfg.ranks(chain)[i].address == x.table[i].address && cfg.ranks(chain)[i].publicHash == x.table[i].pubhash
  }

  /** The blocks that the chosen formulator may make: the rest of its turn, or a whole one when others were skipped. */
  function Left(max: nat, blocks: nat, timeout: nat): int { if timeout == 0 then max - blocks else max }

  /** After the choice exactly these heights are left, at least one and never more than a turn. */
  lemma HeightsLeft(cfg: Config, ob: Observer, min: Ack, x: RankUpdate.State, b: Observer)
    requires Ranks(cfg, ob.chain, x) && RankRotation.Ready(x, cfg.maxBlocks) && cfg.maxBlocks < UINT32
    requires Fresh(cfg, ob) && ob.round.state == AckVoting && b == CloseAck(cfg, ob, min)
    ensures 1 <= Left(cfg.maxBlocks, x.blocks, min.timeout) <= cfg.maxBlocks
    ensures Covers(b.round.blocks, ob.round.target, Left(cfg.maxBlocks, x.blocks, min.timeout))
  {
    assert RemainBlocks(cfg, ob.chain, min.timeout) == Left(cfg.maxBlocks, x.blocks, min.timeout);
  }

  /** Without timeouts they are the blocks that the one on top makes before its turn ends: in every run from here
      without timeouts or account changes it makes each of them, and then counting starts anew. */
  lemma HeightsAreTurn(cfg: Config, ob: Observer, min: Ack, x: RankUpdate.State, b: Observer,
                       ps: seq<RankUpdate.Policy>, inputs: seq<RankUpdate.Input>, hist: seq<RankUpdate.State>, h: nat)
    requires Ranks(cfg, ob.chain, x) && RankRotation.Ready(x, cfg.maxBlocks) && cfg.maxBlocks < UINT32
    requires Fresh(cfg, ob) && ob.round.state == AckVoting && b == CloseAck(cfg, ob, min) && min.timeout == 0
    requires min.formulator == cfg.ranks(ob.chain)[0].address
    requires RankRotation.Quiet(ps, inputs) && RankRotation.History(x, cfg.maxBlocks, ps, inputs, hist)
    requires h in b.round.blocks && |inputs| >= cfg.maxBlocks
    ensures ob.round.target <= h && h - ob.round.target < |hist|
    ensures RankRotation.Maker(hist[h - ob.round.target]) == min.formulator
    ensures hist[cfg.maxBlocks - x.blocks].blocks == 0
  {
    HeightsLeft(cfg, ob, min, x, b);
    var k := cfg.maxBlocks - x.blocks;
    assert ps[..0] == [] && inputs[..0] == [];
    assert RankUpdate.SaveAll(x, cfg.maxBlocks, ps[..0], inputs[..0]) == RankUpdate.Saved(hist[0]);
    RankRotation.TurnEnds(x, cfg.maxBlocks, ps, inputs, hist, 0, k, k - 1);
  }

  /** After others were skipped the count starts with the block: of a whole turn one block is made. */
  lemma SkippedStartsAnew(x: RankUpdate.State, max: nat, p: RankUpdate.Policy, i: RankUpdate.Input,
                          y: RankUpdate.State)
    requires RankRotation.Ready(x, max) && max > 1 && RankRotation.NoLimit(p) && RankRotation.NoChanges(i)
    requires i.timeouts > 0 && RankUpdate.Save(x, max, p, i) == RankUpdate.Saved(y)
    ensures y == RankUpdate.State(RankOrder.Forward(x.table, i.timeouts), 1)
    ensures 1 + (max - y.blocks) == Left(max, x.blocks, i.timeouts)
  {
    RankRotation.SaveTurns(x, max, p, i, RankOrder.Forward(x.table, i.timeouts), 0);
  }
}
