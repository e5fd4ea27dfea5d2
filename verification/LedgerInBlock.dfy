/** The transactions of the ledger as transactions of a block: what the maker of a block does with them. */
module LedgerInBlock {
  import opened Options
  import opened Sums
  import opened Overlay
  import opened LedgerLayers
  import opened LedgerBlocks
  import BlockExec
  import Ledger

  function AsTx(b: Base, tx: Ledger.Tx, fee: nat, height: nat, wait: nat, seqno: nat,
                validate: seq<Layer> -> BlockExec.Outcome): BlockExec.Tx {
    BlockExec.Tx(true, Some(tx.from), seqno, validate, (s: seq<Layer>, i: nat) =>
      if s == [] then BlockExec.Outcome(s, false)
      else var o := WithFee(s, b, tx, fee, height, wait); BlockExec.Outcome(o.stack, o.ok))
  }

  /** Sequences are apart from everything that the ledger reads. */
  lemma SeqShows(s: seq<Layer>, b: Base, c: Coins, a: Addr, r: seq<Layer>)
    requires Holds(s, b, c) && (r == CacheSeq(s, b, a) || r == AddSeq(s, b, a))
    ensures SameBelow(s, r) && Holds(r, b, c) && Top(r).gone == Top(s).gone && Top(r).dead == Top(s).dead
  {
    assert SameBelow(s, r);
    assert forall k :: ReadData(r, b, k) == ReadData(s, b, k);
    assert forall h :: ReadAccount(r, b, h) == ReadAccount(s, b, h);
    HypersFrame(s, r, b, c.stakes, c.staked);
  }

  /** The layer on which the maker of a block executes a transaction. */
  function Ready(s: seq<Layer>, b: Base, a: Addr): seq<Layer> {
    AddSeq(CacheSeq(Snapshot(s), b, a), b, a)
  }

  lemma ReadyShows(s: seq<Layer>, b: Base, c: Coins, a: Addr, r: seq<Layer>)
    requires Holds(s, b, c) && r == Ready(s, b, a)
    ensures SameBelow(Snapshot(s), r) && Holds(r, b, c) && Top(r).gone == {} && Top(r).dead == {}
  {
    SnapshotShows(s, b, c);
    var t := CacheSeq(Snapshot(s), b, a);
    SeqShows(Snapshot(s), b, c, a, t);
    SeqShows(t, b, c, a, r);
  }

  /** What is added to a block, whether it fails or not, is committed with its result, and leaves the coins of the plain
      transaction less what is stored under keys that were deleted earlier in the block. */
  lemma AddedShows(m: BlockExec.Creator, b: Base, c: Coins, tx: Ledger.Tx, fee: nat, height: nat, wait: nat, seqno: nat,
                   t: BlockExec.Tx, added: BlockExec.AddResult, p: Ledger.Outcome)
    requires Holds(m.stack, b, c) && t == AsTx(b, tx, fee, height, wait, seqno, s => BlockExec.Outcome(s, true))
    requires added == BlockExec.AddTx(m, b, t) && added.Added? && p == Ledger.ExecuteTx(c, tx, fee, height, wait)
    ensures Holds(added.creator.stack, b, Drop(p.coins, Top(m.stack).gone))
    ensures added.creator.body.results == m.body.results + [if p.ok then 1 else 0]
  {
    var r := Ready(m.stack, b, tx.from);
    ReadyShows(m.stack, b, c, tx.from, r);
    var o := WithFee(r, b, tx, fee, height, wait);
    LayerShows(m.stack, r, b, c, tx, fee, height, wait, o, p, Commit(o.stack, |m.stack| + 1));
  }
}
