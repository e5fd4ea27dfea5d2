/** The stakes and their index on the layered context: when a block leaves them in order. */
module LedgerBooks {
  import opened Options
  import opened Sums
  import opened Overlay
  import opened LedgerLayers
  import opened LedgerBlocks
  import Ledger
  import StakeIndex

  /** Every formulator lists exactly those with a stake and keeps the sum of their stakes. */
  ghost predicate InOrder(x: Index, n: nat) { StakeIndex.Exact(x) && n == Sum(x.amounts) }

  ghost predicate BooksInOrder(c: Coins) {
    c.staked.Keys == c.stakes.Keys && forall h :: h in c.stakes ==> InOrder(c.stakes[h], c.staked[h])
  }

  // ---- one index ----

  /** No key of the index is among the deleted ones. */
  ghost predicate Spared(x: Index, h: Addr, gone: set<Key>) {
    && (forall a :: a in x.amounts ==> StakeAmount(h, a) !in gone)
    && (forall a :: a in x.number ==> StakeNumber(h, a) !in gone)
    && (forall i :: i in x.reverse ==> StakeReverse(h, i) !in gone)
    && (x.count > 0 ==> StakeCount(h) !in gone)
  }

  lemma SparedStays(x: Index, h: Addr, gone: set<Key>)
    requires Spared(x, h, gone)
    ensures DropIndex(x, h, gone) == x
  {
    var y := DropIndex(x, h, gone);
    assert y.amounts == x.amounts && y.number == x.number && y.reverse == x.reverse;
  }

  /** Losing any key of someone's stake leaves the index out of order, or the sum wrong. */
  lemma LosingBreaks(x: Index, h: Addr, n: nat, gone: set<Key>, a: Addr, y: Index)
    requires InOrder(x, n) && a in x.amounts && y == DropIndex(x, h, gone)
    requires StakeAmount(h, a) in gone || StakeNumber(h, a) in gone || StakeReverse(h, x.number[a]) in gone
      || StakeCount(h) in gone
    ensures !InOrder(y, n)
  {
    SumPart(x.amounts, y.amounts);
    if StakeAmount(h, a) !in gone && StakeNumber(h, a) !in gone {
      assert a in y.number && y.number[a] == x.number[a];
    } else if StakeAmount(h, a) !in gone {
      assert a in y.amounts.Keys && a !in y.number.Keys;
    }
  }

  lemma SubSpared(x: Index, h: Addr, gone: set<Key>, a: Addr, v: nat, y: Index)
    requires StakeIndex.Exact(x) && Spared(x, h, gone) && StakeIndex.Sub(x, a, v) == StakeIndex.Ok(y)
    ensures Spared(y, h, gone)
  {
  }

  /** The keys that a stake adds to an index. */
  function AddedKeys(h: Addr, a: Addr, listed: bool, count: nat): set<Key> {
    {StakeAmount(h, a)} + if listed then {} else {StakeNumber(h, a), StakeReverse(h, count), StakeCount(h)}
  }

  lemma AddOrdered(x: Index, n: nat, a: Addr, v: nat, y: Index)
    requires InOrder(x, n) && v > 0 && y == StakeIndex.Add(x, a, v)
    ensures InOrder(y, n + v) && a in y.amounts && y.number[a] == if a in x.number then x.number[a] else x.count
  {
    StakeIndex.AddExactIff(x, a, v);
    Ledger.StoreSum(x.amounts, a, Get(x.amounts, a) + v);
  }

  /** A stake leaves the index in order if and only if none of the keys that it adds was deleted before. */
  lemma AddSparedIff(x: Index, h: Addr, n: nat, gone: set<Key>, a: Addr, v: nat, y: Index, ks: set<Key>)
    requires InOrder(x, n) && Spared(x, h, gone) && v > 0 && y == StakeIndex.Add(x, a, v)
    requires ks == AddedKeys(h, a, a in x.number, x.count)
    ensures InOrder(DropIndex(y, h, gone), n + v) <==> ks !! gone
  {
    AddOrdered(x, n, a, v, y);
    if ks !! gone {
      AddSpared(x, h, gone, a, v, y, ks);
      SparedStays(y, h, gone);
    } else {
      LosingBreaks(y, h, n + v, gone, a, DropIndex(y, h, gone));
    }
  }

  lemma AddSpared(x: Index, h: Addr, gone: set<Key>, a: Addr, v: nat, y: Index, ks: set<Key>)
    requires Spared(x, h, gone) && y == StakeIndex.Add(x, a, v) && ks == AddedKeys(h, a, a in x.number, x.count)
    requires ks !! gone
    ensures Spared(y, h, gone)
  {
    assert StakeAmount(h, a) in ks;
    assert a in x.number || (StakeNumber(h, a) in ks && StakeReverse(h, x.count) in ks && StakeCount(h) in ks);
  }

  // ---- all of them ----

  lemma HyperSpared(c: Coins, gone: set<Key>, h: Addr)
    requires BooksInOrder(c) && AllBlank(c, gone) && h in c.stakes
    ensures Spared(c.stakes[h], h, gone)
  {
    var x := c.stakes[h];
    forall a | a in x.amounts ensures StakeAmount(h, a) !in gone {
      assert StakeAmount(h, a) in gone ==> Blank(c, StakeAmount(h, a));
    }
    forall a | a in x.number ensures StakeNumber(h, a) !in gone {
      assert StakeNumber(h, a) in gone ==> Blank(c, StakeNumber(h, a));
    }
    forall i | i in x.reverse ensures StakeReverse(h, i) !in gone {
      assert StakeReverse(h, i) in gone ==> Blank(c, StakeReverse(h, i));
    }
    assert StakeCount(h) in gone ==> Blank(c, StakeCount(h));
  }

  /** No key of any index is among the deleted ones. */
  ghost predicate AllSpared(c: Coins, gone: set<Key>) {
    forall h :: h in c.stakes ==> Spared(c.stakes[h], h, gone)
  }

  lemma BlankSpared(c: Coins, gone: set<Key>)
    requires BooksInOrder(c) && AllBlank(c, gone)
    ensures AllSpared(c, gone)
  {
    forall h | h in c.stakes ensures Spared(c.stakes[h], h, gone) { HyperSpared(c, gone, h); }
  }

  /** At one formulator stakes and sum are as given, at all others they are the same. */
  ghost predicate ChangesAt(c: Coins, d: Coins, h: Addr, x: Index, n: nat) {
    && h in c.stakes && d.stakes.Keys == c.stakes.Keys && d.staked.Keys == c.staked.Keys == c.stakes.Keys
    && d.stakes[h] == x && d.staked[h] == n
    && forall g :: g in c.stakes && g != h ==> d.stakes[g] == c.stakes[g] && d.staked[g] == c.staked[g]
  }

  lemma OrderAt(c: Coins, d: Coins, h: Addr, x: Index, n: nat)
    requires BooksInOrder(c) && ChangesAt(c, d, h, x, n)
    ensures BooksInOrder(d) <==> InOrder(x, n)
  {
  }

  /** What is dropped from formulators that do not change is nothing. */
  lemma DropAt(c: Coins, d: Coins, h: Addr, x: Index, n: nat, gone: set<Key>, e: Coins)
    requires AllSpared(c, gone) && ChangesAt(c, d, h, x, n) && e == Drop(d, gone)
    ensures ChangesAt(c, e, h, DropIndex(x, h, gone), n)
  {
    forall g | g in c.stakes && g != h ensures e.stakes[g] == c.stakes[g] {
      assert Spared(c.stakes[g], g, gone);
      SparedStays(c.stakes[g], g, gone);
    }
  }

  lemma NoChange(c: Coins, d: Coins, gone: set<Key>, e: Coins)
    requires BooksInOrder(c) && AllSpared(c, gone) && d.stakes == c.stakes && d.staked == c.staked && e == Drop(d, gone)
    ensures BooksInOrder(e)
  {
    forall g | g in c.stakes ensures e.stakes[g] == c.stakes[g] {
      assert Spared(c.stakes[g], g, gone);
      SparedStays(c.stakes[g], g, gone);
    }
  }

  /** A stake has been added, or one has been taken. */
  ghost predicate Staked(c: Coins, d: Coins, h: Addr, a: Addr, v: nat) {
    h in c.stakes && h in c.staked && ChangesAt(c, d, h, StakeIndex.Add(c.stakes[h], a, v), c.staked[h] + v)
  }

  ghost predicate Unstaked(c: Coins, d: Coins, h: Addr, a: Addr, v: nat) {
    && h in c.stakes && h in c.staked && v <= c.staked[h] && StakeIndex.Sub(c.stakes[h], a, v).Ok?
    && ChangesAt(c, d, h, StakeIndex.Sub(c.stakes[h], a, v).index, c.staked[h] - v)
  }

  ghost predicate OnStakes(c: Coins, tx: Ledger.Tx, d: Coins, ok: bool) {
    if !ok || tx.TransferTx? then d.stakes == c.stakes && d.staked == c.staked
    else if tx.UnstakeTx? then Unstaked(c, d, tx.hyper, tx.from, tx.v)
    else Staked(c, d, tx.hyper, tx.from, tx.v)
  }

  lemma EffectStakes(c: Coins, tx: Ledger.Tx, height: nat, wait: nat, d: Coins)
    requires c.staked.Keys == c.stakes.Keys && Some(d) == Ledger.Effect(tx, height, wait)(c)
    ensures OnStakes(c, tx, d, true)
  {
    match tx
    case TransferTx(from, to, v) =>
    case StakeTx(from, h, v) => assert Staked(c, d, h, from, v);
    case UnstakeTx(from, h, v) => assert Unstaked(c, d, h, from, v);
    case TakeBackTx(from, h, v, at) => assert Staked(c, d, h, from, v);
  }

  /** What a transaction does to the stakes. */
  lemma EffectOnStakes(c: Coins, tx: Ledger.Tx, fee: nat, height: nat, wait: nat, p: Ledger.Outcome)
    requires c.staked.Keys == c.stakes.Keys && p == Ledger.ExecuteTx(c, tx, fee, height, wait)
    ensures OnStakes(c, tx, p.coins, p.ok)
  {
    var e := PaidCoins(c, tx.from, fee);
    if p.ok {
      EffectStakes(e.value, tx, height, wait, p.coins);
      SameStakes(c, e.value, tx, p.coins);
    }
  }

  lemma SameStakes(c: Coins, e: Coins, tx: Ledger.Tx, d: Coins)
    requires e.stakes == c.stakes && e.staked == c.staked && OnStakes(e, tx, d, true)
    ensures OnStakes(c, tx, d, true)
  {
  }

  lemma SubOrdered(x: Index, n: nat, a: Addr, v: nat, y: Index)
    requires InOrder(x, n) && StakeIndex.Sub(x, a, v) == StakeIndex.Ok(y)
    ensures v <= n && InOrder(y, n - v)
  {
    StakeIndex.SubExact(x, a, v);
    Ledger.SubRight(x, n, a, v);
  }

  lemma SubStays(x: Index, h: Addr, n: nat, gone: set<Key>, a: Addr, v: nat, y: Index)
    requires InOrder(x, n) && Spared(x, h, gone) && StakeIndex.Sub(x, a, v) == StakeIndex.Ok(y)
    ensures v <= n && InOrder(y, n - v) && DropIndex(y, h, gone) == y
  {
    SubSpared(x, h, gone, a, v, y);
    SparedStays(y, h, gone);
    SubOrdered(x, n, a, v, y);
  }

  /** All are in order if and only if the one that changes is, once its deleted keys are dropped. */
  lemma Reordered(c: Coins, d: Coins, h: Addr, y: Index, n: nat, gone: set<Key>, z: Index, e: Coins)
    requires BooksInOrder(c) && AllSpared(c, gone) && ChangesAt(c, d, h, y, n)
    requires z == DropIndex(y, h, gone) && e == Drop(d, gone)
    ensures BooksInOrder(e) <==> InOrder(z, n)
  {
    DropAt(c, d, h, y, n, gone, e);
    OrderAt(c, e, h, z, n);
  }

  lemma UnstakeOrdered(c: Coins, d: Coins, h: Addr, a: Addr, v: nat, gone: set<Key>, e: Coins)
    requires BooksInOrder(c) && AllSpared(c, gone) && Unstaked(c, d, h, a, v) && e == Drop(d, gone)
    ensures BooksInOrder(e)
  {
    var x, n := c.stakes[h], c.staked[h];
    var y := StakeIndex.Sub(x, a, v).index;
    SubStays(x, h, n, gone, a, v, y);
    Reordered(c, d, h, y, n - v, gone, y, e);
  }

  lemma StakeOrderedIff(c: Coins, d: Coins, h: Addr, a: Addr, v: nat, gone: set<Key>, e: Coins, ks: set<Key>)
    requires BooksInOrder(c) && AllSpared(c, gone) && Staked(c, d, h, a, v) && v > 0 && e == Drop(d, gone)
    requires ks == AddedKeys(h, a, a in c.stakes[h].number, c.stakes[h].count)
    ensures BooksInOrder(e) <==> ks !! gone
  {
    var x, n := c.stakes[h], c.staked[h];
    var y := StakeIndex.Add(x, a, v);
    AddSparedIff(x, h, n, gone, a, v, y, ks);
    Reordered(c, d, h, y, n + v, gone, DropIndex(y, h, gone), e);
  }

  /** The keys that a transaction adds to an index, when it succeeds. */
  function StakeKeysOf(tx: Ledger.Tx, ok: bool, listed: bool, count: nat): set<Key> {
    if ok && Stakes(tx) then AddedKeys(tx.hyper, tx.from, listed, count) else {}
  }

  function StakeKeys(s: seq<Layer>, b: Base, tx: Ledger.Tx, ok: bool): set<Key> {
    if !Stakes(tx) then {}
    else
      var listed := ReadData(s, b, StakeNumber(tx.hyper, tx.from)).Some?;
      StakeKeysOf(tx, ok, listed, Amount(s, b, StakeCount(tx.hyper)))
  }

  /** The same by the coins. */
  ghost predicate AreStakeKeys(c: Coins, tx: Ledger.Tx, ok: bool, ks: set<Key>) {
    if ok && Stakes(tx)
    then tx.hyper in c.stakes
      && ks == AddedKeys(tx.hyper, tx.from, tx.from in c.stakes[tx.hyper].number, c.stakes[tx.hyper].count)
    else ks == {}
  }

  lemma StakeKeysShown(s: seq<Layer>, b: Base, c: Coins, tx: Ledger.Tx, ok: bool, ks: set<Key>)
    requires Holds(s, b, c) && ks == StakeKeys(s, b, tx, ok) && (ok && Stakes(tx) ==> tx.hyper in c.stakes)
    ensures AreStakeKeys(c, tx, ok, ks)
  {
    if ok && Stakes(tx) {
      AccountOf(s, b, c, tx.hyper);
      ReadsOf(s, b, tx.hyper, c.stakes[tx.hyper], tx.from);
    }
  }

  /** A transaction that is committed to a layer which has deleted the keys `gone` leaves the books in order if and
      only if it adds none of these to an index. */
  lemma CommitBooksIff(c: Coins, tx: Ledger.Tx, fee: nat, height: nat, wait: nat, gone: set<Key>, p: Ledger.Outcome,
                       ks: set<Key>, d: Coins)
    requires BooksInOrder(c) && AllBlank(c, gone) && (Stakes(tx) ==> tx.v > 0)
    requires p == Ledger.ExecuteTx(c, tx, fee, height, wait) && d == Drop(p.coins, gone)
    requires AreStakeKeys(c, tx, p.ok, ks)
    ensures BooksInOrder(d) <==> ks !! gone
  {
    EffectOnStakes(c, tx, fee, height, wait, p);
    BlankSpared(c, gone);
    OrderedIff(c, tx, p.coins, p.ok, gone, d, ks);
  }

  lemma OrderedIff(c: Coins, tx: Ledger.Tx, e: Coins, ok: bool, gone: set<Key>, d: Coins, ks: set<Key>)
    requires BooksInOrder(c) && AllSpared(c, gone) && (Stakes(tx) ==> tx.v > 0) && d == Drop(e, gone)
    requires OnStakes(c, tx, e, ok) && AreStakeKeys(c, tx, ok, ks)
    ensures BooksInOrder(d) <==> ks !! gone
  {
    if !ok || tx.TransferTx? {
      NoChange(c, e, gone, d);
    } else if tx.UnstakeTx? {
      UnstakeOrdered(c, e, tx.hyper, tx.from, tx.v, gone, d);
    } else {
      StakeOrderedIff(c, e, tx.hyper, tx.from, tx.v, gone, d, ks);
    }
  }

  // ---- nothing lost ----

  /** When no key that is added was deleted before, no key of any index is. */
  lemma SparedAfter(c: Coins, tx: Ledger.Tx, e: Coins, ok: bool, gone: set<Key>, ks: set<Key>)
    requires BooksInOrder(c) && AllSpared(c, gone) && OnStakes(c, tx, e, ok) && ks !! gone
    requires AreStakeKeys(c, tx, ok, ks)
    ensures AllSpared(e, gone)
  {
    if ok && !tx.TransferTx? {
      var h := tx.hyper;
      assert Spared(c.stakes[h], h, gone);
      if tx.UnstakeTx? {
        SubSpared(c.stakes[h], h, gone, tx.from, tx.v, e.stakes[h]);
      } else {
        AddSpared(c.stakes[h], h, gone, tx.from, tx.v, e.stakes[h], ks);
      }
    }
  }

  lemma SparedBlank(c: Coins, gone: set<Key>, k: Key)
    requires AllSpared(c, gone)
    requires k in gone && (k.StakeAmount? || k.StakeNumber? || k.StakeReverse? || k.StakeCount?)
    ensures Blank(c, k)
  {
    if k.h in c.stakes { assert Spared(c.stakes[k.h], k.h, gone); }
  }

  lemma EffectTickets(c: Coins, tx: Ledger.Tx, height: nat, wait: nat, d: Coins, t: Ticket)
    requires Some(d) == Ledger.Effect(tx, height, wait)(c) && t !in c.pending && t in d.pending && tx.v > 0
    ensures d.pending[t] > 0
  {
    match tx
    case TransferTx(from, to, v) =>
    case StakeTx(from, h, v) =>
    case UnstakeTx(from, h, v) =>
    case TakeBackTx(from, h, v, at) =>
  }

  lemma NewTickets(c: Coins, tx: Ledger.Tx, fee: nat, height: nat, wait: nat, p: Ledger.Outcome, t: Ticket)
    requires p == Ledger.ExecuteTx(c, tx, fee, height, wait) && t !in c.pending && t in p.coins.pending && tx.v > 0
    ensures Get(p.coins.pending, t) > 0
  {
    var e := PaidCoins(c, tx.from, fee);
    if p.ok { EffectTickets(e.value, tx, height, wait, p.coins, t); }
  }

  /** A transaction that adds no deleted key leaves all of these blank, so that nothing is dropped. */
  lemma CommitClean(c: Coins, tx: Ledger.Tx, fee: nat, height: nat, wait: nat, gone: set<Key>, p: Ledger.Outcome,
                    credits: set<Key>, ks: set<Key>)
    requires BooksInOrder(c) && AllBlank(c, gone) && tx.v > 0 && p == Ledger.ExecuteTx(c, tx, fee, height, wait)
    requires credits == CreditsOf(tx, fee, height, wait, Get(c.balances, tx.from) >= fee, p.ok)
    requires AreStakeKeys(c, tx, p.ok, ks) && credits !! gone && ks !! gone
    ensures BooksInOrder(p.coins) && AllBlank(p.coins, gone)
  {
    EffectOnStakes(c, tx, fee, height, wait, p);
    PlainOrdered(c, tx, p.coins, p.ok);
    BlankSpared(c, gone);
    SparedAfter(c, tx, p.coins, p.ok, gone, ks);
    forall k | k in gone ensures Blank(p.coins, k) {
      assert Blank(c, k);
      StaysBlank(c, tx, fee, height, wait, gone, p, credits, k);
    }
  }

  lemma StaysBlank(c: Coins, tx: Ledger.Tx, fee: nat, height: nat, wait: nat, gone: set<Key>, p: Ledger.Outcome,
                   credits: set<Key>, k: Key)
    requires Blank(c, k) && tx.v > 0 && k in gone && p == Ledger.ExecuteTx(c, tx, fee, height, wait)
    requires credits == CreditsOf(tx, fee, height, wait, Get(c.balances, tx.from) >= fee, p.ok) && credits !! gone
    requires AllSpared(p.coins, gone)
    ensures Blank(p.coins, k)
  {
    if k.StakeAmount? || k.StakeNumber? || k.StakeReverse? || k.StakeCount? {
      SparedBlank(p.coins, gone, k);
    } else {
      CreditsAre(c, tx, fee, height, wait, p, k);
      if k.Unstaking? {
        var t := Ledger.Ticket(k.height, k.a, k.h);
        if t in p.coins.pending { NewTickets(c, tx, fee, height, wait, p, t); }
      }
    }
  }

  /** On plain coins the books stay in order. */
  lemma PlainOrdered(c: Coins, tx: Ledger.Tx, d: Coins, ok: bool)
    requires BooksInOrder(c) && OnStakes(c, tx, d, ok) && tx.v > 0
    ensures BooksInOrder(d)
  {
    if ok && !tx.TransferTx? {
      var x, n := c.stakes[tx.hyper], c.staked[tx.hyper];
      if tx.UnstakeTx? {
        SubOrdered(x, n, tx.from, tx.v, d.stakes[tx.hyper]);
      } else {
        AddOrdered(x, n, tx.from, tx.v, d.stakes[tx.hyper]);
      }
      OrderAt(c, d, tx.hyper, d.stakes[tx.hyper], d.staked[tx.hyper]);
    }
  }

  // ---- transmutations ----

  lemma TakeStakeStakes(c: Coins, from: Addr, h: Addr, v: nat, d: Coins)
    requires c.staked.Keys == c.stakes.Keys && Ledger.TakeStake(c, from, h, v) == Some(d)
    ensures Unstaked(c, d, h, from, v)
  {
  }

  lemma TakeStakeClean(c: Coins, from: Addr, h: Addr, v: nat, gone: set<Key>, d: Coins)
    requires BooksInOrder(c) && AllSpared(c, gone) && Ledger.TakeStake(c, from, h, v) == Some(d)
    ensures BooksInOrder(d) && AllSpared(d, gone)
  {
    TakeStakeStakes(c, from, h, v, d);
    assert Spared(c.stakes[h], h, gone);
    SubSpared(c.stakes[h], h, gone, from, v, d.stakes[h]);
    SubOrdered(c.stakes[h], c.staked[h], from, v, d.stakes[h]);
    OrderAt(c, d, h, d.stakes[h], d.staked[h]);
  }

  lemma {:induction false} TakenClean(c: Coins, from: Addr, hypers: seq<Addr>, amounts: seq<nat>, n: nat,
                                      gone: set<Key>, o: Ledger.Outcome)
    requires BooksInOrder(c) && AllSpared(c, gone)
    requires n <= |hypers| == |amounts| && o == Ledger.Taken(c, from, hypers, amounts, n)
    ensures BooksInOrder(o.coins) && AllSpared(o.coins, gone)
    ensures o.coins.balances == c.balances && o.coins.fee == c.fee && o.coins.pending == c.pending
  {
    if n > 0 {
      var p := Ledger.Taken(c, from, hypers, amounts, n - 1);
      TakenClean(c, from, hypers, amounts, n - 1, gone, p);
      if o.ok { TakeStakeClean(p.coins, from, hypers[n - 1], amounts[n - 1], gone, o.coins); }
    }
  }

  /** A transmutation, failed or not, keeps the books in order and sets no deleted key. */
  lemma TransmuteClean(c: Coins, from: Addr, hypers: seq<Addr>, amounts: seq<nat>, gone: set<Key>, o: Ledger.Outcome)
    requires BooksInOrder(c) && AllBlank(c, gone)
    requires |hypers| == |amounts| && o == Ledger.Taken(c, from, hypers, amounts, |hypers|)
    ensures BooksInOrder(o.coins) && AllBlank(o.coins, gone)
  {
    BlankSpared(c, gone);
    TakenClean(c, from, hypers, amounts, |hypers|, gone, o);
    forall k | k in gone ensures Blank(o.coins, k) {
      assert Blank(c, k);
      if k.StakeAmount? || k.StakeNumber? || k.StakeReverse? || k.StakeCount? { SparedBlank(o.coins, gone, k); }
    }
  }

  lemma OrderedKept(c: Coins)
    requires BooksInOrder(c)
    ensures Ledger.Kept(c)
  {
    forall h | h in c.stakes ensures Ledger.SumRight(c.stakes[h], c.staked[h]) {
      assert InOrder(c.stakes[h], c.staked[h]);
    }
  }
}
