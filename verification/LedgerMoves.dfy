/** Who pays, who gets and what stays: every transaction by account, by stake and by ticket. */
module LedgerMoves {
  import opened Options
  import opened Sums
  import opened StakeIndex
  import opened Ledger

  /** What a transaction whose fee is paid adds to the balance of `a`. */
  function BalanceMove(tx: Tx, fee: nat, ok: bool, a: Addr): int {
    (if a == tx.from then -(fee as int) else 0) +
    if !ok then 0
    else
      match tx
      case TransferTx(from, to, v) => (if a == to then v else 0) - (if a == from then v else 0)
      case StakeTx(from, _, v) => if a == from then 0 - v else 0
      case _ => 0
  }

  /** What it adds to the stake of `a` at `h`. */
  function StakeMove(tx: Tx, ok: bool, h: Addr, a: Addr): int {
    if !ok || tx.TransferTx? || h != tx.hyper || a != tx.from then 0 else if tx.UnstakeTx? then 0 - tx.v else tx.v
  }

  /** What it adds to a ticket. */
  function TicketMove(tx: Tx, height: nat, wait: nat, ok: bool, t: Ticket): int {
    if !ok then 0
    else
      match tx
      case UnstakeTx(from, h, v) => if t == Ticket(height + wait, from, h) then v else 0
      case TakeBackTx(from, h, v, at) => if t == Ticket(at, from, h) then 0 - v else 0
      case _ => 0
  }

  lemma EffectBalance(c: Coins, tx: Tx, height: nat, wait: nat, d: Coins, a: Addr)
    requires Effect(tx, height, wait)(c) == Some(d)
    ensures d.fee == c.fee && Get(d.balances, a) == Get(c.balances, a) + BalanceMove(tx, 0, true, a)
  {
  }

  lemma EffectStake(c: Coins, tx: Tx, height: nat, wait: nat, d: Coins, h: Addr, a: Addr)
    requires Effect(tx, height, wait)(c) == Some(d)
    ensures d.stakes.Keys == c.stakes.Keys && d.staked.Keys == c.staked.Keys
    ensures h in c.stakes ==> Amount(d.stakes[h], a) == Amount(c.stakes[h], a) + StakeMove(tx, true, h, a)
    ensures h in c.staked ==> d.staked[h] == c.staked[h] + StakeMove(tx, true, h, tx.from)
  {
  }

  lemma EffectTicket(c: Coins, tx: Tx, height: nat, wait: nat, d: Coins, t: Ticket)
    requires Effect(tx, height, wait)(c) == Some(d)
    ensures Get(d.pending, t) == Get(c.pending, t) + TicketMove(tx, height, wait, true, t)
  {
  }

  /** A transaction whose fee can be paid moves the fee, and if it succeeds its amount between the two places that it
      names, and nothing else of anybody: no other balance, stake, sum or ticket. */
  lemma ExecuteMoves(c: Coins, tx: Tx, fee: nat, height: nat, wait: nat, p: Outcome, a: Addr, h: Addr, t: Ticket)
    requires p == ExecuteTx(c, tx, fee, height, wait) && Get(c.balances, tx.from) >= fee
    ensures p.coins.fee == c.fee + fee
    ensures Get(p.coins.balances, a) == Get(c.balances, a) + BalanceMove(tx, fee, p.ok, a)
    ensures p.coins.stakes.Keys == c.stakes.Keys && p.coins.staked.Keys == c.staked.Keys
    ensures h in c.stakes ==> Amount(p.coins.stakes[h], a) == Amount(c.stakes[h], a) + StakeMove(tx, p.ok, h, a)
    ensures h in c.staked ==> p.coins.staked[h] == c.staked[h] + StakeMove(tx, p.ok, h, tx.from)
    ensures Get(p.coins.pending, t) == Get(c.pending, t) + TicketMove(tx, height, wait, p.ok, t)
  {
    var d := SubBalance(c, tx.from, fee).value;
    var e := d.(fee := d.fee + fee);
    if p.ok {
      EffectBalance(e, tx, height, wait, p.coins, a);
      EffectStake(e, tx, height, wait, p.coins, h, a);
      EffectTicket(e, tx, height, wait, p.coins, t);
    }
  }

  /** What the rest of a transaction needs, once the fee is paid. */
  predicate Affords(c: Coins, tx: Tx, fee: nat) {
    match tx
    case TransferTx(from, _, v) => Get(c.balances, from) >= fee + v
    case StakeTx(from, h, v) => h in c.stakes && h in c.staked && Get(c.balances, from) >= fee + v
    case UnstakeTx(from, h, v) => h in c.stakes && h in c.staked && Amount(c.stakes[h], from) >= v && c.staked[h] >= v
    case TakeBackTx(from, h, v, at) =>
      h in c.stakes && h in c.staked && Ticket(at, from, h) in c.pending && c.pending[Ticket(at, from, h)] >= v
  }

  /** It succeeds if and only if the fee and the amount are there; without the fee it changes nothing. */
  lemma ExecuteIff(c: Coins, tx: Tx, fee: nat, height: nat, wait: nat, p: Outcome)
    requires p == ExecuteTx(c, tx, fee, height, wait)
    ensures p.ok <==> Get(c.balances, tx.from) >= fee && Affords(c, tx, fee)
    ensures Get(c.balances, tx.from) < fee ==> p.coins == c
  {
    var d := SubBalance(c, tx.from, fee);
    if d.Some? {
      var e := d.value.(fee := d.value.fee + fee);
      assert Get(e.balances, tx.from) == Get(c.balances, tx.from) - fee;
      EffectIff(e, tx, height, wait);
    }
  }

  lemma EffectIff(c: Coins, tx: Tx, height: nat, wait: nat)
    ensures Effect(tx, height, wait)(c).Some? <==> Affords(c, tx, 0)
  {
    match tx
    case TransferTx(from, to, v) =>
    case StakeTx(from, h, v) =>
    case UnstakeTx(from, h, v) =>
    case TakeBackTx(from, h, v, at) =>
  }

  // ---- transmutations ----

  lemma TakeStakeMoves(c: Coins, from: Addr, h: Addr, v: nat, d: Coins, g: Addr, a: Addr)
    requires TakeStake(c, from, h, v) == Some(d)
    ensures d.balances == c.balances && d.fee == c.fee && d.pending == c.pending && d.stakes.Keys == c.stakes.Keys
    ensures g in c.stakes ==>
      Amount(d.stakes[g], a) == Amount(c.stakes[g], a) - if g == h && a == from then v else 0
  {
  }

  /** A transmutation that takes its first `n` stakes takes from the sender at every formulator what is asked of it
      there, and nothing else of anybody. */
  lemma {:induction false} TakenMoves(c: Coins, from: Addr, hypers: seq<Addr>, amounts: seq<nat>, n: nat, o: Outcome,
                                      g: Addr, a: Addr)
    requires n <= |hypers| == |amounts| && o == Taken(c, from, hypers, amounts, n) && o.ok
    ensures o.coins.balances == c.balances && o.coins.fee == c.fee && o.coins.pending == c.pending
    ensures o.coins.stakes.Keys == c.stakes.Keys
    ensures g in c.stakes ==>
      Amount(o.coins.stakes[g], a) == Amount(c.stakes[g], a) - if a == from then Asked(hypers, amounts, n, g) else 0
  {
    if n > 0 {
      var p := Taken(c, from, hypers, amounts, n - 1);
      TakenMoves(c, from, hypers, amounts, n - 1, p, g, a);
      TakeStakeMoves(p.coins, from, hypers[n - 1], amounts[n - 1], o.coins, g, a);
    }
  }

  /** When it fails it is left with what it has taken before the first stake that is too small. */
  lemma {:induction false} TakenUpTo(c: Coins, from: Addr, hypers: seq<Addr>, amounts: seq<nat>, n: nat, o: Outcome)
      returns (k: nat)
    requires n <= |hypers| == |amounts| && o == Taken(c, from, hypers, amounts, n) && !o.ok
    ensures k < n && Taken(c, from, hypers, amounts, k) == Outcome(o.coins, true)
    ensures !Covered(o.coins, from, hypers[k], amounts[k])
  {
    var p := Taken(c, from, hypers, amounts, n - 1);
    if p.ok { k := n - 1; } else { k := TakenUpTo(c, from, hypers, amounts, n - 1, p); }
  }
}
