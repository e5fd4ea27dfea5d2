/** What the accounts own, with every stake counted for itself and not by the sums that formulators keep. */
module LedgerHoldings {
  import opened Options
  import opened Sums
  import opened StakeIndex
  import opened Ledger

  /** What is staked at each formulator. */
  ghost function AtStake(stakes: map<Addr, Index>): map<Addr, nat> { map h | h in stakes :: Sum(stakes[h].amounts) }

  ghost function Holdings(c: Coins): nat {
    Sum(c.balances) + c.fee + Sum(AtStake(c.stakes)) + Sum(c.pending)
  }

  /** Where the sums of the formulators are right, this is the supply. */
  lemma KeptHoldings(c: Coins)
    requires Kept(c)
    ensures Holdings(c) == Supply(c)
  {
    assert AtStake(c.stakes) == c.staked;
  }

  /** How far the sums of the formulators are off. */
  ghost function Gap(c: Coins): int { Sum(AtStake(c.stakes)) - Sum(c.staked) }

  lemma StakeChanges(stakes: map<Addr, Index>, h: Addr, x: Index)
    requires h in stakes
    ensures Sum(AtStake(stakes[h := x])) == Sum(AtStake(stakes)) - Sum(stakes[h].amounts) + Sum(x.amounts)
  {
    assert AtStake(stakes[h := x]) == AtStake(stakes)[h := Sum(x.amounts)];
    SumUpdate(AtStake(stakes), h, Sum(x.amounts));
  }

  /** Stakes and sum of one formulator change alike. */
  lemma GapStays(c: Coins, h: Addr, x: Index, n: nat, d: Coins)
    requires h in c.stakes && h in c.staked && d.stakes == c.stakes[h := x] && d.staked == c.staked[h := n]
    requires Sum(x.amounts) - Sum(c.stakes[h].amounts) == n - c.staked[h]
    ensures Gap(d) == Gap(c)
  {
    StakeChanges(c.stakes, h, x);
    SumUpdate(c.staked, h, n);
  }

  lemma AddStakeGap(c: Coins, h: Addr, a: Addr, v: nat, d: Coins)
    requires h in c.stakes && h in c.staked && d == AddStake(c, h, a, v)
    ensures Gap(d) == Gap(c)
  {
    var x := c.stakes[h];
    StoreSum(x.amounts, a, Amount(x, a) + v);
    GapStays(c, h, Add(x, a, v), c.staked[h] + v, d);
  }

  lemma SubSum(x: Index, a: Addr, v: nat, y: Index)
    requires Sub(x, a, v) == Ok(y)
    ensures Sum(y.amounts) == Sum(x.amounts) - v
  {
    StoreSum(x.amounts, a, Amount(x, a) - v);
  }

  lemma TakeStakeGap(c: Coins, from: Addr, h: Addr, v: nat, d: Coins)
    requires TakeStake(c, from, h, v) == Some(d)
    ensures Gap(d) == Gap(c)
  {
    SubSum(c.stakes[h], from, v, d.stakes[h]);
    GapStays(c, h, d.stakes[h], c.staked[h] - v, d);
  }

  lemma SameGap(c: Coins, d: Coins)
    requires d.stakes == c.stakes && d.staked == c.staked
    ensures Gap(d) == Gap(c)
  {
  }

  lemma EffectGap(c: Coins, tx: Tx, height: nat, wait: nat, d: Coins)
    requires Effect(tx, height, wait)(c) == Some(d)
    ensures Gap(d) == Gap(c)
  {
    match tx
    case TransferTx(from, to, v) => SameGap(c, d);
    case StakeTx(from, h, v) =>
      var e := SubBalance(c, from, v).value;
      SameGap(c, e);
      AddStakeGap(e, h, from, v, d);
    case UnstakeTx(from, h, v) =>
      var e := TakeStake(c, from, h, v).value;
      TakeStakeGap(c, from, h, v, e);
      SameGap(e, d);
    case TakeBackTx(from, h, v, at) =>
      var e := c.(pending := d.pending);
      SameGap(c, e);
      AddStakeGap(e, h, from, v, d);
  }

  /** No transaction makes or loses anything, whatever the sums of the formulators are. */
  lemma ExecuteHoldings(c: Coins, tx: Tx, fee: nat, height: nat, wait: nat, p: Outcome)
    requires p == ExecuteTx(c, tx, fee, height, wait)
    ensures Holdings(p.coins) == Holdings(c)
  {
    var d := SubBalance(c, tx.from, fee);
    if d.Some? {
      var e := d.value.(fee := d.value.fee + fee);
      SubBalanceSupply(c, tx.from, fee);
      SameGap(c, e);
      if p.ok {
        EffectSupply(e, tx, height, wait);
        EffectGap(e, tx, height, wait, p.coins);
      }
    }
  }

  lemma {:induction false} PayAllHoldings(c: Coins, ts: seq<Ticket>, d: Coins)
    requires d == PayAll(c, ts)
    ensures Holdings(d) == Holdings(c) && d.stakes == c.stakes && d.staked == c.staked
  {
    if ts != [] {
      var e, t := PayAll(c, ts[..|ts| - 1]), ts[|ts| - 1];
      PayAllHoldings(c, ts[..|ts| - 1], e);
      if t in e.pending {
        PayTicketSupply(e, t);
        SameGap(e, d);
      }
    }
  }

  lemma {:induction false} TakenGap(c: Coins, from: Addr, hypers: seq<Addr>, amounts: seq<nat>, n: nat, o: Outcome)
    requires n <= |hypers| == |amounts| && o == Taken(c, from, hypers, amounts, n)
    ensures Gap(o.coins) == Gap(c)
  {
    if n > 0 {
      var p := Taken(c, from, hypers, amounts, n - 1);
      TakenGap(c, from, hypers, amounts, n - 1, p);
      if o.ok { TakeStakeGap(p.coins, from, hypers[n - 1], amounts[n - 1], o.coins); }
    }
  }

  /** A transmutation that passes its checks makes nothing, and with the deposit of the new formulator, which there is
      only on success, it loses nothing if and only if it succeeds. */
  lemma TransmuteHoldings(c: Coins, from: Addr, hypers: seq<Addr>, amounts: seq<nat>, o: Outcome, deposit: nat)
    requires Transmutable(c, from, hypers, amounts) && o == Taken(c, from, hypers, amounts, |hypers|)
    requires deposit == if o.ok then Total(amounts) else 0
    ensures Holdings(o.coins) + deposit <= Holdings(c) && (Holdings(o.coins) + deposit == Holdings(c) <==> o.ok)
  {
    DepositIff(c, from, hypers, amounts, o, deposit);
    TakenGap(c, from, hypers, amounts, |hypers|, o);
  }
}
