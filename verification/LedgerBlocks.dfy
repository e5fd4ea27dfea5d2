/** Blocks of transactions on the layered context: what a commit loses, and when no coins are lost. */
module LedgerBlocks {
  import opened Options
  import opened Sums
  import opened Overlay
  import opened LedgerLayers
  import opened LedgerHoldings
  import Ledger
  import StakeIndex

  // ---- one commit ----

  lemma CommitOne(s: seq<Layer>, t: seq<Layer>)
    requires s != [] && SameBelow(Snapshot(s), t)
    ensures Commit(t, |s| + 1) == s[..|s| - 1] + [Merge(Top(s), Top(t))]
    ensures t == s[..|s| - 1] + [Top(s)] + [Top(t)]
  {
    assert Snapshot(s)[..|s|] == s;
    assert t[..|s|] == s && t == s + [Top(t)] && s == s[..|s| - 1] + [Top(s)];
    var r := WithTop(t[..|t| - 1], Merge(t[|t| - 2], t[|t| - 1]));
    assert r == s[..|s| - 1] + [Merge(Top(s), Top(t))];
    assert Commit(t, |s| + 1) == Commit(r, |s| + 1) == r;
  }

  /** After a commit the keys that the layer below has deleted read as nothing, all others as before. */
  lemma CommitGives(s: seq<Layer>, t: seq<Layer>, b: Base, r: seq<Layer>)
    requires s != [] && SameBelow(Snapshot(s), t) && r == Commit(t, |s| + 1)
    ensures SameBelow(s, r) && Top(r) == Merge(Top(s), Top(t))
    ensures forall k :: ReadData(r, b, k) == if k in Top(s).gone then None else ReadData(t, b, k)
    ensures forall a :: ReadAccount(r, b, a) == if a in Top(s).dead then Deleted else ReadAccount(t, b, a)
  {
    CommitOne(s, t);
    var rest := s[..|s| - 1];
    forall k ensures ReadData(r, b, k) == if k in Top(s).gone then None else ReadData(t, b, k) {
      MergeGives(rest, Top(s), Top(t), b, k, 0);
    }
    forall a ensures ReadAccount(r, b, a) == if a in Top(s).dead then Deleted else ReadAccount(t, b, a) {
      MergeGives(rest, Top(s), Top(t), b, CollectedFee, a);
    }
  }

  // ---- coins without some keys ----

  function DropIndex(x: Index, h: Addr, gone: set<Key>): Index {
    StakeIndex.Index(
      map a | a in x.amounts && StakeAmount(h, a) !in gone :: x.amounts[a],
      map a | a in x.number && StakeNumber(h, a) !in gone :: x.number[a],
      map i | i in x.reverse && StakeReverse(h, i) !in gone :: x.reverse[i],
      if StakeCount(h) in gone then 0 else x.count)
  }

  function Drop(c: Coins, gone: set<Key>): Coins {
    Ledger.Coins(
      map a | a in c.balances && Balance(a) !in gone :: c.balances[a],
      if CollectedFee in gone then 0 else c.fee,
      c.staked,
      map h | h in c.stakes :: DropIndex(c.stakes[h], h, gone),
      map t | t in c.pending && TicketKey(t) !in gone :: c.pending[t])
  }

  lemma IndexDropped(s: seq<Layer>, r: seq<Layer>, b: Base, h: Addr, x: Index, gone: set<Key>)
    requires ShowsIndex(s, b, h, x)
    requires forall k :: ReadData(r, b, k) == if k in gone then None else ReadData(s, b, k)
    ensures ShowsIndex(r, b, h, DropIndex(x, h, gone))
  {
  }

  lemma HypersDropped(s: seq<Layer>, r: seq<Layer>, b: Base, c: Coins, gone: set<Key>, dead: set<Addr>, d: Coins)
    requires ShowsHypers(s, b, c.stakes, c.staked) && d == Drop(c, gone) && forall h :: h in c.stakes ==> h !in dead
    requires forall k :: ReadData(r, b, k) == if k in gone then None else ReadData(s, b, k)
    requires forall a :: ReadAccount(r, b, a) == if a in dead then Deleted else ReadAccount(s, b, a)
    ensures ShowsHypers(r, b, d.stakes, d.staked)
  {
    forall h ensures ShowsHyper(r, b, d.stakes, d.staked, h) {
      assert ShowsHyper(s, b, c.stakes, c.staked, h);
      if h in c.stakes { IndexDropped(s, r, b, h, c.stakes[h], gone); }
    }
  }

  /** A commit drops what is stored under keys that the layer below has deleted. */
  lemma CommitDrops(s: seq<Layer>, t: seq<Layer>, b: Base, c: Coins, r: seq<Layer>, d: Coins)
    requires s != [] && SameBelow(Snapshot(s), t) && r == Commit(t, |s| + 1) && d == Drop(c, Top(s).gone)
    requires Holds(t, b, c) && forall h :: h in c.stakes ==> h !in Top(s).dead
    ensures SameBelow(s, r) && Holds(r, b, d)
  {
    CommitGives(s, t, b, r);
    HypersDropped(t, r, b, c, Top(s).gone, Top(s).dead, d);
  }

  /** Nothing is stored under the key. */
  predicate Blank(c: Coins, k: Key) {
    match k
    case Balance(a) => Get(c.balances, a) == 0
    case CollectedFee => c.fee == 0
    case StakeAmount(h, a) => h in c.stakes ==> Get(c.stakes[h].amounts, a) == 0
    case StakeNumber(h, a) => h in c.stakes ==> a !in c.stakes[h].number
    case StakeReverse(h, i) => h in c.stakes ==> i !in c.stakes[h].reverse
    case StakeCount(h) => h in c.stakes ==> c.stakes[h].count == 0
    case Unstaking(height, a, h) => Ledger.Ticket(height, a, h) !in c.pending
    case Other(_) => true
  }

  ghost predicate AllBlank(c: Coins, gone: set<Key>) { forall k :: k in gone ==> Blank(c, k) }

  lemma IndexBlank(s: seq<Layer>, b: Base, c: Coins, h: Addr, gone: set<Key>)
    requires h in c.stakes && ShowsIndex(s, b, h, DropIndex(c.stakes[h], h, gone))
    requires AllBlank(c, gone)
    ensures ShowsIndex(s, b, h, c.stakes[h])
  {
    var x := c.stakes[h];
    forall a ensures Get(DropIndex(x, h, gone).amounts, a) == Get(x.amounts, a) {
      assert StakeAmount(h, a) in gone ==> Blank(c, StakeAmount(h, a));
    }
    forall a ensures Lookup(DropIndex(x, h, gone).number, a) == Lookup(x.number, a) {
      assert StakeNumber(h, a) in gone ==> Blank(c, StakeNumber(h, a));
    }
    forall i ensures Lookup(DropIndex(x, h, gone).reverse, i) == Lookup(x.reverse, i) {
      assert StakeReverse(h, i) in gone ==> Blank(c, StakeReverse(h, i));
    }
    assert StakeCount(h) in gone ==> Blank(c, StakeCount(h));
  }

  /** Dropping keys that are blank changes nothing. */
  lemma DropBlank(s: seq<Layer>, b: Base, c: Coins, gone: set<Key>, d: Coins)
    requires d == Drop(c, gone) && Holds(s, b, d) && AllBlank(c, gone)
    ensures Holds(s, b, c)
  {
    forall a ensures Get(d.balances, a) == Get(c.balances, a) {
      assert Balance(a) in gone ==> Blank(c, Balance(a));
    }
    assert CollectedFee in gone ==> Blank(c, CollectedFee);
    forall t ensures Lookup(d.pending, t) == Lookup(c.pending, t) {
      assert TicketKey(t) in gone ==> Blank(c, TicketKey(t));
    }
    forall h ensures ShowsHyper(s, b, c.stakes, c.staked, h) {
      assert ShowsHyper(s, b, d.stakes, d.staked, h);
      if h in c.stakes { IndexBlank(s, b, c, h, gone); }
    }
  }

  /** What the coins have under the deleted keys of the top layer is nothing. */
  lemma GoneBlank(s: seq<Layer>, b: Base, c: Coins, k: Key)
    requires Holds(s, b, c) && k in Top(s).gone
    ensures Blank(c, k)
  {
    assert ReadData(s, b, k) == None;
    match k
    case StakeAmount(h, a) => if h in c.stakes { AccountOf(s, b, c, h); ReadsOf(s, b, h, c.stakes[h], a); }
    case StakeNumber(h, a) => if h in c.stakes { AccountOf(s, b, c, h); ReadsOf(s, b, h, c.stakes[h], a); }
    case StakeReverse(h, i) => if h in c.stakes { AccountOf(s, b, c, h); }
    case StakeCount(h) => if h in c.stakes { AccountOf(s, b, c, h); }
    case Unstaking(height, a, h) => assert ReadData(s, b, TicketKey(Ledger.Ticket(height, a, h))) == None;
    case _ =>
  }

  lemma ShownBlank(s: seq<Layer>, b: Base, c: Coins)
    requires Holds(s, b, c)
    ensures AllBlank(c, Top(s).gone)
  {
    forall k | k in Top(s).gone ensures Blank(c, k) { GoneBlank(s, b, c, k); }
  }

  // ---- the fee ----

  function PaidCoins(c: Coins, from: Addr, fee: nat): Option<Coins> {
    var d := Ledger.SubBalance(c, from, fee);
    if d.None? then None else Some(d.value.(fee := d.value.fee + fee))
  }

  lemma PaidMatches(s: seq<Layer>, b: Base, c: Coins, from: Addr, fee: nat, t: Option<seq<Layer>>, d: Option<Coins>)
    requires Holds(s, b, c) && t == Paid(s, b, from, fee) && d == PaidCoins(c, from, fee)
    ensures Matches(s, b, t, d)
  {
    var r, e := SubBalance(s, b, from, fee), Ledger.SubBalance(c, from, fee);
    SubBalanceMatches(s, b, c, from, fee, r, e);
    if r.Some? { FeeShows(r.value, b, e.value, e.value.fee + fee, t.value); }
  }

  lemma PaidGone(s: seq<Layer>, b: Base, from: Addr, fee: nat, t: Option<seq<Layer>>)
    requires s != [] && Top(s).gone == {} && Top(s).dead == {} && t == Paid(s, b, from, fee) && t.Some?
    ensures Top(t.value).gone <= {Balance(from), CollectedFee} && Top(t.value).dead == {}
  {
  }

  lemma EffectSpares(c: Coins, tx: Ledger.Tx, height: nat, wait: nat, d: Option<Coins>)
    requires d == Ledger.Effect(tx, height, wait)(c) && d.Some?
    ensures d.value.fee == c.fee && d.value.stakes.Keys == c.stakes.Keys + (if tx.TransferTx? then {} else {tx.hyper})
    ensures tx.TransferTx? || tx.hyper in c.stakes
    ensures Get(c.balances, tx.from) == 0 ==> Get(d.value.balances, tx.from) == 0
  {
  }

  /** The layer of the transaction deletes at most the balance of the sender and the fees, and only when they are zero:
      committing the layer above loses nothing. */
  lemma InnerCommit(u: seq<Layer>, b: Base, e: Coins, tx: Ledger.Tx, height: nat, wait: nat, t: seq<Layer>, d: Coins,
                    r: seq<Layer>)
    requires Holds(u, b, e) && Top(u).gone <= {Balance(tx.from), CollectedFee} && Top(u).dead == {}
    requires SameBelow(Snapshot(u), t) && Holds(t, b, d) && Some(d) == Ledger.Effect(tx, height, wait)(e)
    requires r == Commit(t, |u| + 1)
    ensures SameBelow(u, r) && Holds(r, b, d)
  {
    CommitDrops(u, t, b, d, r, Drop(d, Top(u).gone));
    EffectSpares(e, tx, height, wait, Some(d));
    forall k | k in Top(u).gone ensures Blank(d, k) { GoneBlank(u, b, e, k); }
    DropBlank(r, b, d, Top(u).gone, Drop(d, Top(u).gone));
  }

  lemma SnapshotShows(s: seq<Layer>, b: Base, c: Coins)
    requires Holds(s, b, c)
    ensures Holds(Snapshot(s), b, c)
  {
    SnapshotReads(s, b);
    HypersFrame(s, Snapshot(s), b, c.stakes, c.staked);
  }

  lemma RestShows(u: seq<Layer>, b: Base, e: Coins, tx: Ledger.Tx, height: nat, wait: nat, o: Outcome, d: Option<Coins>)
    requires Holds(u, b, e) && Top(u).gone <= {Balance(tx.from), CollectedFee} && Top(u).dead == {}
    requires o == Rest(u, b, tx, height, wait) && d == Ledger.Effect(tx, height, wait)(e)
    ensures o.ok == d.Some? && SameBelow(u, o.stack) && Holds(o.stack, b, if d.Some? then d.value else e)
  {
    SnapshotShows(u, b, e);
    var t := Act(Snapshot(u), b, tx, height, wait);
    ActMatches(Snapshot(u), b, e, tx, height, wait, t, d);
    if t.Some? { InnerCommit(u, b, e, tx, height, wait, t.value, d.value, o.stack); }
  }

  lemma ExecuteTxIs(c: Coins, tx: Ledger.Tx, fee: nat, height: nat, wait: nat, e: Option<Coins>, d: Option<Coins>)
    requires e == PaidCoins(c, tx.from, fee) && (e.Some? ==> d == Ledger.Effect(tx, height, wait)(e.value))
    ensures Ledger.ExecuteTx(c, tx, fee, height, wait) ==
      if e.None? then Ledger.Outcome(c, false)
      else if d.None? then Ledger.Outcome(e.value, false) else Ledger.Outcome(d.value, true)
  {
  }

  /** The fee and the rest together do what they do to plain coins. */
  lemma WithFeeShows(s: seq<Layer>, b: Base, c: Coins, tx: Ledger.Tx, fee: nat, height: nat, wait: nat, o: Outcome,
                     p: Ledger.Outcome)
    requires Holds(s, b, c) && Top(s).gone == {} && Top(s).dead == {}
    requires o == WithFee(s, b, tx, fee, height, wait) && p == Ledger.ExecuteTx(c, tx, fee, height, wait)
    ensures o.ok == p.ok && SameBelow(s, o.stack) && Holds(o.stack, b, p.coins)
  {
    var u, e := Paid(s, b, tx.from, fee), PaidCoins(c, tx.from, fee);
    PaidMatches(s, b, c, tx.from, fee, u, e);
    if u.Some? {
      var d := Ledger.Effect(tx, height, wait)(e.value);
      ExecuteTxIs(c, tx, fee, height, wait, e, d);
      PaidGone(s, b, tx.from, fee, u);
      RestShows(u.value, b, e.value, tx, height, wait, o, d);
    }
  }

  /** A transaction on a layer that has deleted nothing, committed to the layer below. */
  lemma LayerShows(s: seq<Layer>, r: seq<Layer>, b: Base, c: Coins, tx: Ledger.Tx, fee: nat, height: nat, wait: nat,
                   o: Outcome, p: Ledger.Outcome, t: seq<Layer>)
    requires Holds(s, b, c) && SameBelow(Snapshot(s), r) && Holds(r, b, c) && Top(r).gone == {} && Top(r).dead == {}
    requires o == WithFee(r, b, tx, fee, height, wait) && p == Ledger.ExecuteTx(c, tx, fee, height, wait)
    requires t == Commit(o.stack, |s| + 1)
    ensures o.ok == p.ok && SameBelow(s, t) && Holds(t, b, Drop(p.coins, Top(s).gone))
  {
    WithFeeShows(r, b, c, tx, fee, height, wait, o, p);
    SameHypers(c, tx, fee, height, wait, p);
    forall h | h in p.coins.stakes ensures h !in Top(s).dead { AccountOf(s, b, c, h); }
    CommitDrops(s, o.stack, b, p.coins, t, Drop(p.coins, Top(s).gone));
  }

  /** A committed transaction does what it does to plain coins, less what is stored under keys that were deleted earlier
      in the block. */
  lemma ExecuteShows(s: seq<Layer>, b: Base, c: Coins, tx: Ledger.Tx, fee: nat, height: nat, wait: nat, o: Outcome,
                     p: Ledger.Outcome)
    requires Holds(s, b, c) && o == Execute(s, b, tx, fee, height, wait)
    requires p == Ledger.ExecuteTx(c, tx, fee, height, wait)
    ensures o.ok == p.ok && SameBelow(s, o.stack) && Holds(o.stack, b, Drop(p.coins, Top(s).gone))
  {
    SnapshotShows(s, b, c);
    var r := WithFee(Snapshot(s), b, tx, fee, height, wait);
    LayerShows(s, Snapshot(s), b, c, tx, fee, height, wait, r, p, o.stack);
  }

  lemma SameHypers(c: Coins, tx: Ledger.Tx, fee: nat, height: nat, wait: nat, p: Ledger.Outcome)
    requires p == Ledger.ExecuteTx(c, tx, fee, height, wait)
    ensures p.coins.stakes.Keys == c.stakes.Keys
  {
    var e := PaidCoins(c, tx.from, fee);
    if p.ok { EffectSpares(e.value, tx, height, wait, Some(p.coins)); }
  }

  // ---- what is owned ----

  /** The coins that a key stands for. */
  function MoneyAt(c: Coins, k: Key): nat {
    match k
    case Balance(a) => Get(c.balances, a)
    case CollectedFee => c.fee
    case StakeAmount(h, a) => if h in c.stakes then Get(c.stakes[h].amounts, a) else 0
    case Unstaking(height, a, h) => Get(c.pending, Ledger.Ticket(height, a, h))
    case _ => 0
  }

  /** At one formulator, dropping keys takes off exactly the amounts under them. */
  lemma DropStakes(x: Index, h: Addr, gone: set<Key>, y: Index)
    requires y == DropIndex(x, h, gone)
    ensures Sum(y.amounts) <= Sum(x.amounts)
    ensures Sum(y.amounts) == Sum(x.amounts) <==> forall a :: StakeAmount(h, a) in gone ==> Get(x.amounts, a) == 0
  {
    SumPart(x.amounts, y.amounts);
    if Sum(y.amounts) == Sum(x.amounts) {
      forall a | StakeAmount(h, a) in gone ensures Get(x.amounts, a) == 0 { assert a !in y.amounts; }
    }
  }

  ghost predicate NoStakeIn(c: Coins, gone: set<Key>) {
    forall h, a :: StakeAmount(h, a) in gone ==> MoneyAt(c, StakeAmount(h, a)) == 0
  }

  lemma DropAtStake(c: Coins, gone: set<Key>, d: Coins)
    requires d == Drop(c, gone)
    ensures Sum(AtStake(d.stakes)) <= Sum(AtStake(c.stakes))
    ensures Sum(AtStake(d.stakes)) == Sum(AtStake(c.stakes)) <==> NoStakeIn(c, gone)
  {
    var m, n := AtStake(c.stakes), AtStake(d.stakes);
    forall h | h in m ensures n[h] <= m[h] { DropStakes(c.stakes[h], h, gone, d.stakes[h]); }
    SumFalls(m, n);
    if Sum(n) == Sum(m) {
      forall h, a | StakeAmount(h, a) in gone ensures MoneyAt(c, StakeAmount(h, a)) == 0 {
        if h in m { DropStakes(c.stakes[h], h, gone, d.stakes[h]); }
      }
    }
    if NoStakeIn(c, gone) {
      forall h | h in m ensures n[h] == m[h] { NoStakeAt(c, gone, d, h); }
    }
  }

  lemma NoStakeAt(c: Coins, gone: set<Key>, d: Coins, h: Addr)
    requires d == Drop(c, gone) && NoStakeIn(c, gone) && h in c.stakes
    ensures Sum(d.stakes[h].amounts) == Sum(c.stakes[h].amounts)
  {
    DropStakes(c.stakes[h], h, gone, d.stakes[h]);
    forall a | StakeAmount(h, a) in gone ensures Get(c.stakes[h].amounts, a) == 0 {
      assert MoneyAt(c, StakeAmount(h, a)) == 0;
    }
  }

  /** Dropping keys never adds to what is owned, and takes nothing off it if and only if they stand for no coins. */
  lemma DropHoldings(c: Coins, gone: set<Key>, d: Coins)
    requires d == Drop(c, gone)
    ensures Holdings(d) <= Holdings(c)
    ensures Holdings(d) == Holdings(c) <==> forall k :: k in gone ==> MoneyAt(c, k) == 0
  {
    SumPart(c.balances, d.balances);
    SumPart(c.pending, d.pending);
    DropAtStake(c, gone, d);
    if Holdings(d) == Holdings(c) {
      forall k | k in gone ensures MoneyAt(c, k) == 0 { DropsNothing(c, gone, d, k); }
    }
    if forall k :: k in gone ==> MoneyAt(c, k) == 0 {
      forall a | a in c.balances && a !in d.balances ensures c.balances[a] == 0 { assert MoneyAt(c, Balance(a)) == 0; }
      forall t | t in c.pending && t !in d.pending ensures c.pending[t] == 0 { assert MoneyAt(c, TicketKey(t)) == 0; }
      assert CollectedFee in gone ==> MoneyAt(c, CollectedFee) == 0;
      assert NoStakeIn(c, gone);
    }
  }

  lemma DropsNothing(c: Coins, gone: set<Key>, d: Coins, k: Key)
    requires d == Drop(c, gone) && k in gone && d.fee == c.fee && NoStakeIn(c, gone)
    requires forall a :: a in c.balances && a !in d.balances ==> c.balances[a] == 0
    requires forall t :: t in c.pending && t !in d.pending ==> c.pending[t] == 0
    ensures MoneyAt(c, k) == 0
  {
    if k.Unstaking? {
      var t := Ledger.Ticket(k.height, k.a, k.h);
      assert TicketKey(t) == k;
    }
  }

  predicate Stakes(tx: Ledger.Tx) { tx.StakeTx? || tx.TakeBackTx? }

  /** The keys under which a transaction stores coins where there were none, when it can pay the fee and when it
      succeeds. */
  function CreditsOf(tx: Ledger.Tx, fee: nat, height: nat, wait: nat, paid: bool, ok: bool): set<Key> {
    (if paid && fee > 0 then {CollectedFee} else {}) +
    (if !ok || tx.v == 0 then {}
     else if tx.TransferTx? then {Balance(tx.to)}
     else if tx.UnstakeTx? then {Unstaking(height + wait, tx.from, tx.hyper)}
     else {StakeAmount(tx.hyper, tx.from)})
  }

  function Credits(s: seq<Layer>, b: Base, tx: Ledger.Tx, fee: nat, height: nat, wait: nat, ok: bool): set<Key> {
    CreditsOf(tx, fee, height, wait, Amount(s, b, Balance(tx.from)) >= fee, ok)
  }

  lemma EffectMoney(c: Coins, tx: Ledger.Tx, height: nat, wait: nat, d: Coins, k: Key)
    requires Some(d) == Ledger.Effect(tx, height, wait)(c) && MoneyAt(c, k) == 0
    ensures MoneyAt(d, k) > 0 <==> k in CreditsOf(tx, 0, height, wait, true, true)
  {
  }

  /** Of the keys that stand for no coins before, a transaction makes exactly those stand for some. */
  lemma CreditsAre(c: Coins, tx: Ledger.Tx, fee: nat, height: nat, wait: nat, p: Ledger.Outcome, k: Key)
    requires p == Ledger.ExecuteTx(c, tx, fee, height, wait) && MoneyAt(c, k) == 0
    ensures MoneyAt(p.coins, k) > 0 <==> k in CreditsOf(tx, fee, height, wait, Get(c.balances, tx.from) >= fee, p.ok)
  {
    var e := PaidCoins(c, tx.from, fee);
    if e.Some? {
      PaidMoney(c, tx.from, fee, e.value, k);
      if p.ok {
        EffectSpares(e.value, tx, height, wait, Some(p.coins));
        if k != CollectedFee { EffectMoney(e.value, tx, height, wait, p.coins, k); }
      }
    }
  }

  lemma PaidMoney(c: Coins, from: Addr, fee: nat, e: Coins, k: Key)
    requires Some(e) == PaidCoins(c, from, fee) && MoneyAt(c, k) == 0
    ensures MoneyAt(e, k) == if k == CollectedFee then fee else 0
  {
  }

  lemma CreditsShown(s: seq<Layer>, b: Base, c: Coins, tx: Ledger.Tx, fee: nat, height: nat, wait: nat, ok: bool)
    requires Holds(s, b, c)
    ensures Credits(s, b, tx, fee, height, wait, ok) ==
      CreditsOf(tx, fee, height, wait, Get(c.balances, tx.from) >= fee, ok)
  {
    assert ReadData(s, b, Balance(tx.from)) == Stored(Get(c.balances, tx.from));
  }

  /** A transaction that is committed to a layer which has deleted the keys `gone` never adds to what is owned, and
      keeps it if and only if it credits none of these. */
  lemma CommitSupplyIff(c: Coins, tx: Ledger.Tx, fee: nat, height: nat, wait: nat, gone: set<Key>, p: Ledger.Outcome,
                        ks: set<Key>, d: Coins)
    requires p == Ledger.ExecuteTx(c, tx, fee, height, wait) && d == Drop(p.coins, gone) && AllBlank(c, gone)
    requires ks == CreditsOf(tx, fee, height, wait, Get(c.balances, tx.from) >= fee, p.ok)
    ensures Holdings(d) <= Holdings(c) && (Holdings(d) == Holdings(c) <==> ks !! gone)
  {
    ExecuteHoldings(c, tx, fee, height, wait, p);
    DropHoldings(p.coins, gone, d);
    forall k | k in gone ensures MoneyAt(p.coins, k) > 0 <==> k in ks {
      assert Blank(c, k);
      CreditsAre(c, tx, fee, height, wait, p, k);
    }
  }

  // ---- transmutations ----

  lemma TakeStakeMoney(c: Coins, from: Addr, h: Addr, v: nat, d: Coins, k: Key)
    requires Ledger.TakeStake(c, from, h, v) == Some(d)
    ensures MoneyAt(d, k) <= MoneyAt(c, k)
  {
  }

  lemma {:induction false} TakenMoney(c: Coins, from: Addr, hypers: seq<Addr>, amounts: seq<nat>, n: nat,
                                      o: Ledger.Outcome, k: Key)
    requires n <= |hypers| == |amounts| && o == Ledger.Taken(c, from, hypers, amounts, n)
    ensures MoneyAt(o.coins, k) <= MoneyAt(c, k)
  {
    if n > 0 {
      var p := Ledger.Taken(c, from, hypers, amounts, n - 1);
      TakenMoney(c, from, hypers, amounts, n - 1, p, k);
      if o.ok { TakeStakeMoney(p.coins, from, hypers[n - 1], amounts[n - 1], o.coins, k); }
    }
  }

  /** A transmutation credits no key: what its commit drops is nothing, and what is lost is what it has taken when it
      fails. */
  lemma TransmuteCommits(c: Coins, from: Addr, hypers: seq<Addr>, amounts: seq<nat>, gone: set<Key>,
                         o: Ledger.Outcome, deposit: nat, d: Coins)
    requires Ledger.Transmutable(c, from, hypers, amounts) && o == Ledger.Taken(c, from, hypers, amounts, |hypers|)
    requires AllBlank(c, gone) && d == Drop(o.coins, gone) && deposit == if o.ok then Total(amounts) else 0
    ensures Holdings(d) + deposit <= Holdings(c) && (Holdings(d) + deposit == Holdings(c) <==> o.ok)
  {
    LedgerHoldings.TransmuteHoldings(c, from, hypers, amounts, o, deposit);
    DropHoldings(o.coins, gone, d);
    forall k | k in gone ensures MoneyAt(o.coins, k) == 0 {
      assert Blank(c, k);
      TakenMoney(c, from, hypers, amounts, |hypers|, o, k);
    }
  }

  lemma CoveredShown(s: seq<Layer>, b: Base, c: Coins, from: Addr, h: Addr, v: nat)
    requires Holds(s, b, c)
    ensures StakeCovers(s, b, from, h, v) <==> Ledger.Covered(c, from, h, v)
  {
    AccountOf(s, b, c, h);
    if h in c.stakes { ReadsOf(s, b, h, c.stakes[h], from); }
  }

  /** The checks on the context are those on plain coins. */
  lemma TransmutableShown(s: seq<Layer>, b: Base, c: Coins, from: Addr, hypers: seq<Addr>, amounts: seq<nat>)
    requires Holds(s, b, c)
    ensures MayTransmute(s, b, from, hypers, amounts) <==> Ledger.Transmutable(c, from, hypers, amounts)
  {
    forall h, v ensures StakeCovers(s, b, from, h, v) <==> Ledger.Covered(c, from, h, v) {
      CoveredShown(s, b, c, from, h, v);
    }
  }

  ghost predicate Mirrors(s: seq<Layer>, b: Base, o: Outcome, p: Ledger.Outcome) {
    o.ok == p.ok && SameBelow(s, o.stack) && Holds(o.stack, b, p.coins)
  }

  lemma MirrorsNext(s: seq<Layer>, b: Base, q: Outcome, r: Ledger.Outcome, from: Addr, h: Addr, v: nat,
                    t: Option<seq<Layer>>, d: Option<Coins>)
    requires Mirrors(s, b, q, r) && q.stack != []
    requires t == TakeStake(q.stack, b, from, h, v) && d == Ledger.TakeStake(r.coins, from, h, v)
    ensures Mirrors(s, b, if t.None? then Outcome(q.stack, false) else Outcome(t.value, true),
                    if d.None? then Ledger.Outcome(r.coins, false) else Ledger.Outcome(d.value, true))
  {
    TakeStakeMatches(q.stack, b, r.coins, from, h, v, t, d);
  }

  lemma {:induction false} TakenShows(s: seq<Layer>, b: Base, c: Coins, from: Addr, hypers: seq<Addr>,
                                      amounts: seq<nat>, n: nat)
    requires Holds(s, b, c) && n <= |hypers| == |amounts|
    ensures Mirrors(s, b, Taken(s, b, from, hypers, amounts, n), Ledger.Taken(c, from, hypers, amounts, n))
  {
    if n > 0 {
      var q, r := Taken(s, b, from, hypers, amounts, n - 1), Ledger.Taken(c, from, hypers, amounts, n - 1);
      TakenShows(s, b, c, from, hypers, amounts, n - 1);
      if q.ok {
        MirrorsNext(s, b, q, r, from, hypers[n - 1], amounts[n - 1],
                    TakeStake(q.stack, b, from, hypers[n - 1], amounts[n - 1]),
                    Ledger.TakeStake(r.coins, from, hypers[n - 1], amounts[n - 1]));
      }
    }
  }

  lemma {:induction false} TakenHypers(c: Coins, from: Addr, hypers: seq<Addr>, amounts: seq<nat>, n: nat)
    requires n <= |hypers| == |amounts|
    ensures Ledger.Taken(c, from, hypers, amounts, n).coins.stakes.Keys == c.stakes.Keys
  {
    if n > 0 { TakenHypers(c, from, hypers, amounts, n - 1); }
  }

  /** A committed transmutation, failed or not, leaves what it leaves of plain coins, less what is stored under keys
      that were deleted earlier in the block. */
  lemma TransmuteShows(s: seq<Layer>, b: Base, c: Coins, from: Addr, hypers: seq<Addr>, amounts: seq<nat>, o: Outcome,
                       p: Ledger.Outcome, r: seq<Layer>)
    requires Holds(s, b, c) && |hypers| == |amounts| && o == Taken(Snapshot(s), b, from, hypers, amounts, |hypers|)
    requires p == Ledger.Taken(c, from, hypers, amounts, |hypers|) && r == Commit(o.stack, |s| + 1)
    ensures o.ok == p.ok && SameBelow(Snapshot(s), o.stack) && Holds(r, b, Drop(p.coins, Top(s).gone))
  {
    SnapshotShows(s, b, c);
    TakenShows(Snapshot(s), b, c, from, hypers, amounts, |hypers|);
    TakenHypers(c, from, hypers, amounts, |hypers|);
    forall h | h in p.coins.stakes ensures h !in Top(s).dead { AccountOf(s, b, c, h); }
    CommitDrops(s, o.stack, b, p.coins, r, Drop(p.coins, Top(s).gone));
  }
}
