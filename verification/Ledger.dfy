/** Coins: balances, collected fees, stakes at hyper formulators, and stakes on their way back. */
module Ledger {
  import opened Options
  import opened Sums
  import opened StakeIndex

  /** A stake on its way back: to whom, from which formulator, at which height. */
  datatype Ticket = Ticket(height: nat, staker: Addr, hyper: Addr)

  /** `staked` is the sum that a formulator account keeps beside the stakes themselves. */
  datatype Coins = Coins(
    balances: map<Addr, nat>,
    fee: nat,
    staked: map<Addr, nat>,
    stakes: map<Addr, Index>,
    pending: map<Ticket, nat>)

  /** The sums that formulators keep are the sums of their stakes. */
  ghost predicate Kept(c: Coins) {
    SumsRight(c.stakes, c.staked)
  }

  ghost predicate SumsRight(stakes: map<Addr, Index>, staked: map<Addr, nat>) {
    staked.Keys == stakes.Keys && forall h :: h in stakes ==> SumRight(stakes[h], staked[h])
  }

  ghost predicate SumRight(x: Index, n: nat) {
    Listed(x) && n == Sum(x.amounts)
  }

  ghost function Supply(c: Coins): nat {
    Sum(c.balances) + c.fee + Sum(c.staked) + Sum(c.pending)
  }

  // ---- operations ----

  function AddBalance(c: Coins, a: Addr, v: nat): Coins {
    c.(balances := Store(c.balances, a, Get(c.balances, a) + v))
  }

  function SubBalance(c: Coins, a: Addr, v: nat): Option<Coins> {
    if Get(c.balances, a) < v then None else Some(c.(balances := Store(c.balances, a, Get(c.balances, a) - v)))
  }

  datatype Outcome = Outcome(coins: Coins, ok: bool)

  /** The fee is taken first, and kept when the rest fails. */
  function WithFee(c: Coins, from: Addr, fee: nat, rest: Coins -> Option<Coins>): Outcome {
    var d := SubBalance(c, from, fee);
    if d.None? then Outcome(c, false)
    else
      var e := d.value.(fee := d.value.fee + fee);
      var f := rest(e);
      if f.None? then Outcome(e, false) else Outcome(f.value, true)
  }

  function Transfer(c: Coins, from: Addr, to: Addr, v: nat): Option<Coins> {
    var d := SubBalance(c, from, v);
    if d.None? then None else Some(AddBalance(d.value, to, v))
  }

  function AddStake(c: Coins, h: Addr, a: Addr, v: nat): Coins
    requires h in c.stakes && h in c.staked
  {
    c.(stakes := c.stakes[h := Add(c.stakes[h], a, v)], staked := c.staked[h := c.staked[h] + v])
  }

  function Stake(c: Coins, from: Addr, h: Addr, v: nat): Option<Coins> {
    if h !in c.stakes || h !in c.staked then None
    else
      var d := SubBalance(c, from, v);
      if d.None? then None else Some(AddStake(d.value, h, from, v))
  }

  /** Takes a stake off the index and off the sum; the sum is checked before a transaction is executed. */
  function TakeStake(c: Coins, from: Addr, h: Addr, v: nat): Option<Coins> {
    if h !in c.stakes || h !in c.staked then None
    else
      var r := Sub(c.stakes[h], from, v);
      if r.MinusBalance? || c.staked[h] < v then None
      else Some(c.(stakes := c.stakes[h := r.index], staked := c.staked[h := c.staked[h] - v]))
  }

  function Unstake(c: Coins, from: Addr, h: Addr, v: nat, height: nat): Option<Coins> {
    var d := TakeStake(c, from, h, v);
    var t := Ticket(height, from, h);
    if d.None? then None else Some(d.value.(pending := c.pending[t := Get(c.pending, t) + v]))
  }

  /** A ticket stays, with zero, when all of it is taken back. */
  function TakeBack(c: Coins, from: Addr, h: Addr, v: nat, height: nat): Option<Coins> {
    var t := Ticket(height, from, h);
    if h !in c.stakes || h !in c.staked || t !in c.pending || c.pending[t] < v then None
    else
      var left := if c.pending[t] == 0 then c.pending - {t} else c.pending[t := c.pending[t] - v];
      Some(AddStake(c.(pending := left), h, from, v))
  }

  /** A stake that has waited long enough goes to the balance. */
  function PayTicket(c: Coins, t: Ticket): Coins
    requires t in c.pending
  {
    AddBalance(c.(pending := c.pending - {t}), t.staker, c.pending[t])
  }

  // ---- nothing is made or lost ----

  lemma StoreSum(m: map<Addr, nat>, a: Addr, v: nat)
    ensures Sum(Store(m, a, v)) == Sum(m) - Get(m, a) + v
  {
    if v == 0 { SumWithout(m, a); } else { SumUpdate(m, a, v); }
  }

  lemma AddBalanceSupply(c: Coins, a: Addr, v: nat)
    ensures Supply(AddBalance(c, a, v)) == Supply(c) + v
  {
    StoreSum(c.balances, a, Get(c.balances, a) + v);
  }

  lemma SubBalanceSupply(c: Coins, a: Addr, v: nat)
    requires SubBalance(c, a, v).Some?
    ensures Supply(SubBalance(c, a, v).value) == Supply(c) - v
  {
    StoreSum(c.balances, a, Get(c.balances, a) - v);
  }

  lemma StakedSupply(c: Coins, d: Coins, h: Addr, n: nat)
    requires h in c.staked && d == c.(stakes := d.stakes, staked := c.staked[h := n])
    ensures Supply(d) == Supply(c) - c.staked[h] + n
  {
    SumUpdate(c.staked, h, n);
  }

  lemma PendingSupply(c: Coins, d: Coins)
    requires d == c.(pending := d.pending)
    ensures Supply(d) == Supply(c) - Sum(c.pending) + Sum(d.pending)
  {
  }

  // Each operation leaves the supply as it is.

  lemma TransferSupply(c: Coins, from: Addr, to: Addr, v: nat)
    requires Transfer(c, from, to, v).Some?
    ensures Supply(Transfer(c, from, to, v).value) == Supply(c)
  {
    SubBalanceSupply(c, from, v);
    AddBalanceSupply(SubBalance(c, from, v).value, to, v);
  }

  lemma StakeSupply(c: Coins, from: Addr, h: Addr, v: nat)
    requires Stake(c, from, h, v).Some?
    ensures Supply(Stake(c, from, h, v).value) == Supply(c)
  {
    SubBalanceSupply(c, from, v);
    StakedSupply(SubBalance(c, from, v).value, Stake(c, from, h, v).value, h, c.staked[h] + v);
  }

  lemma TakeStakeSupply(c: Coins, from: Addr, h: Addr, v: nat)
    requires TakeStake(c, from, h, v).Some?
    ensures Supply(TakeStake(c, from, h, v).value) == Supply(c) - v
  {
    StakedSupply(c, TakeStake(c, from, h, v).value, h, c.staked[h] - v);
  }

  lemma UnstakeSupply(c: Coins, from: Addr, h: Addr, v: nat, height: nat)
    requires Unstake(c, from, h, v, height).Some?
    ensures Supply(Unstake(c, from, h, v, height).value) == Supply(c)
  {
    var t := Ticket(height, from, h);
    TakeStakeSupply(c, from, h, v);
    SumUpdate(c.pending, t, Get(c.pending, t) + v);
    PendingSupply(TakeStake(c, from, h, v).value, Unstake(c, from, h, v, height).value);
  }

  lemma TicketSum(m: map<Ticket, nat>, t: Ticket, v: nat)
    requires t in m && v <= m[t]
    ensures Sum(if m[t] == 0 then m - {t} else m[t := m[t] - v]) == Sum(m) - v
  {
    SumWithout(m, t);
    SumUpdate(m, t, m[t] - v);
  }

  lemma TakeBackSupply(c: Coins, from: Addr, h: Addr, v: nat, height: nat)
    requires TakeBack(c, from, h, v, height).Some?
    ensures Supply(TakeBack(c, from, h, v, height).value) == Supply(c)
  {
    var t := Ticket(height, from, h);
    TicketSum(c.pending, t, v);
    var e := c.(pending := if c.pending[t] == 0 then c.pending - {t} else c.pending[t := c.pending[t] - v]);
    PendingSupply(c, e);
    StakedSupply(e, TakeBack(c, from, h, v, height).value, h, c.staked[h] + v);
  }

  lemma PayTicketSupply(c: Coins, t: Ticket)
    requires t in c.pending
    ensures Supply(PayTicket(c, t)) == Supply(c)
  {
    SumWithout(c.pending, t);
    PendingSupply(c, c.(pending := c.pending - {t}));
    AddBalanceSupply(c.(pending := c.pending - {t}), t.staker, c.pending[t]);
  }

  // Each operation leaves the sums of the formulators right.

  lemma AddRight(x: Index, n: nat, a: Addr, v: nat)
    requires SumRight(x, n)
    ensures SumRight(Add(x, a, v), n + v)
  {
    AddListed(x, a, v);
    StoreSum(x.amounts, a, Amount(x, a) + v);
  }

  lemma AmountInSum(x: Index, a: Addr)
    ensures Amount(x, a) <= Sum(x.amounts)
  {
    if a in x.amounts { SumRemove(x.amounts, a); }
  }

  lemma SubRight(x: Index, n: nat, a: Addr, v: nat)
    requires SumRight(x, n) && v <= Amount(x, a)
    ensures v <= n && Sub(x, a, v).Ok? && SumRight(Sub(x, a, v).index, n - v)
  {
    SubListed(x, a, v);
    AmountInSum(x, a);
    StoreSum(x.amounts, a, Amount(x, a) - v);
  }

  /** A stake can be taken unless it is too small: the sum of the formulator is never the reason. */
  lemma TakeStakeSucceeds(c: Coins, from: Addr, h: Addr, v: nat)
    requires Kept(c)
    ensures TakeStake(c, from, h, v).Some? <==> h in c.stakes && v <= Amount(c.stakes[h], from)
  {
    if h in c.stakes && v <= Amount(c.stakes[h], from) { SubRight(c.stakes[h], c.staked[h], from, v); }
  }

  lemma StakeKept(c: Coins, from: Addr, h: Addr, v: nat)
    requires Kept(c) && Stake(c, from, h, v).Some?
    ensures Kept(Stake(c, from, h, v).value)
  {
    AddRight(c.stakes[h], c.staked[h], from, v);
  }

  lemma TakeStakeKept(c: Coins, from: Addr, h: Addr, v: nat)
    requires Kept(c) && TakeStake(c, from, h, v).Some?
    ensures Kept(TakeStake(c, from, h, v).value)
  {
    SubRight(c.stakes[h], c.staked[h], from, v);
  }

  lemma TakeBackKept(c: Coins, from: Addr, h: Addr, v: nat, height: nat)
    requires Kept(c) && TakeBack(c, from, h, v, height).Some?
    ensures Kept(TakeBack(c, from, h, v, height).value)
  {
    AddRight(c.stakes[h], c.staked[h], from, v);
  }

  ghost predicate Conserves(c: Coins, d: Option<Coins>) {
    d.Some? ==> Kept(d.value) && Supply(d.value) == Supply(c)
  }

  /** With the fee around it an operation conserves too, whether it succeeds or not; when only the rest fails,
      exactly the fee has moved. */
  lemma WithFeeConserves(c: Coins, from: Addr, fee: nat, rest: Coins -> Option<Coins>)
    requires Kept(c) && forall d {:trigger rest(d)} :: Kept(d) ==> Conserves(d, rest(d))
    ensures var o := WithFee(c, from, fee, rest);
      && Kept(o.coins) && Supply(o.coins) == Supply(c)
      && (!o.ok ==> o.coins == if Get(c.balances, from) < fee then c
                               else c.(balances := Store(c.balances, from, Get(c.balances, from) - fee),
                                       fee := c.fee + fee))
  {
    if SubBalance(c, from, fee).Some? {
      SubBalanceSupply(c, from, fee);
      var d := SubBalance(c, from, fee).value;
      var e := d.(fee := d.fee + fee);
      assert Kept(e) && Supply(e) == Supply(c);
      assert Conserves(e, rest(e));
    }
  }

  // ---- whole runs ----

  datatype Tx =
    | TransferTx(from: Addr, to: Addr, v: nat)
    | StakeTx(from: Addr, hyper: Addr, v: nat)
    | UnstakeTx(from: Addr, hyper: Addr, v: nat)
    | TakeBackTx(from: Addr, hyper: Addr, v: nat, height: nat)

  /** What a transaction does at `height`; stakes come back `wait` blocks later. */
  function Effect(tx: Tx, height: nat, wait: nat): Coins -> Option<Coins> {
    match tx
    case TransferTx(from, to, v) => (c: Coins) => Transfer(c, from, to, v)
    case StakeTx(from, h, v) => (c: Coins) => Stake(c, from, h, v)
    case UnstakeTx(from, h, v) => (c: Coins) => Unstake(c, from, h, v, height + wait)
    case TakeBackTx(from, h, v, at) => (c: Coins) => TakeBack(c, from, h, v, at)
  }

  function ExecuteTx(c: Coins, tx: Tx, fee: nat, height: nat, wait: nat): Outcome {
    WithFee(c, tx.from, fee, Effect(tx, height, wait))
  }

  lemma EffectSupply(c: Coins, tx: Tx, height: nat, wait: nat)
    requires Effect(tx, height, wait)(c).Some?
    ensures Supply(Effect(tx, height, wait)(c).value) == Supply(c)
  {
    match tx
    case TransferTx(from, to, v) => TransferSupply(c, from, to, v);
    case StakeTx(from, h, v) => StakeSupply(c, from, h, v);
    case UnstakeTx(from, h, v) => UnstakeSupply(c, from, h, v, height + wait);
    case TakeBackTx(from, h, v, at) => TakeBackSupply(c, from, h, v, at);
  }

  lemma EffectKept(c: Coins, tx: Tx, height: nat, wait: nat)
    requires Kept(c) && Effect(tx, height, wait)(c).Some?
    ensures Kept(Effect(tx, height, wait)(c).value)
  {
    match tx
    case TransferTx(from, to, v) =>
    case StakeTx(from, h, v) => StakeKept(c, from, h, v);
    case UnstakeTx(from, h, v) => TakeStakeKept(c, from, h, v);
    case TakeBackTx(from, h, v, at) => TakeBackKept(c, from, h, v, at);
  }

  lemma ExecuteConserves(c: Coins, tx: Tx, fee: nat, height: nat, wait: nat)
    requires Kept(c)
    ensures Kept(ExecuteTx(c, tx, fee, height, wait).coins)
    ensures Supply(ExecuteTx(c, tx, fee, height, wait).coins) == Supply(c)
  {
    forall d | Kept(d) ensures Conserves(d, Effect(tx, height, wait)(d)) {
      if Effect(tx, height, wait)(d).Some? {
        EffectSupply(d, tx, height, wait);
        EffectKept(d, tx, height, wait);
      }
    }
    WithFeeConserves(c, tx.from, fee, Effect(tx, height, wait));
  }

  ghost predicate Distinct<T>(s: seq<T>) {
    forall i, j :: 0 <= i < j < |s| ==> s[i] != s[j]
  }

  lemma NextPrefix<T>(s: seq<T>, i: nat)
    requires Distinct(s) && i < |s|
    ensures s[..i + 1] == s[..i] + [s[i]] && s[i] !in s[..i]
  {
  }

  /** The tickets of a height. */
  ghost predicate Due(c: Coins, ts: seq<Ticket>, height: nat) {
    && Distinct(ts)
    && (forall t :: t in ts <==> t in c.pending && t.height == height)
  }

  /** Paying tickets one after another; those that are not there are passed over. */
  function PayAll(c: Coins, ts: seq<Ticket>): Coins {
    if ts == [] then c
    else
      var d, t := PayAll(c, ts[..|ts| - 1]), ts[|ts| - 1];
      if t in d.pending then PayTicket(d, t) else d
  }

  lemma {:induction false} PayAllConserves(c: Coins, ts: seq<Ticket>, d: Coins)
    requires Kept(c) && d == PayAll(c, ts)
    ensures Kept(d) && Supply(d) == Supply(c)
  {
    if ts != [] {
      var e, t := PayAll(c, ts[..|ts| - 1]), ts[|ts| - 1];
      PayAllConserves(c, ts[..|ts| - 1], e);
      if t in e.pending { PayTicketSupply(e, t); }
    }
  }

  function TicketsOf(pending: map<Ticket, nat>, height: nat): set<Ticket> {
    set t | t in pending && t.height == height
  }

  function TicketsTo(pending: map<Ticket, nat>, ts: set<Ticket>, a: Addr): map<Ticket, nat> {
    map t | t in pending && t in ts && t.staker == a :: pending[t]
  }

  /** What the tickets among `ts` are worth to `a`. */
  ghost function DueTo(pending: map<Ticket, nat>, ts: set<Ticket>, a: Addr): nat { Sum(TicketsTo(pending, ts, a)) }

  lemma DueMore(pending: map<Ticket, nat>, ts: set<Ticket>, t: Ticket, a: Addr)
    requires t in pending && t !in ts
    ensures DueTo(pending, ts + {t}, a) == DueTo(pending, ts, a) + if t.staker == a then pending[t] else 0
  {
    var m := TicketsTo(pending, ts, a);
    assert TicketsTo(pending, ts + {t}, a) == if t.staker == a then m[t := pending[t]] else m;
    SumUpdate(m, t, pending[t]);
  }

  lemma DueSame(pending: map<Ticket, nat>, ts: set<Ticket>, us: set<Ticket>, a: Addr)
    requires forall t :: t in pending ==> (t in ts <==> t in us)
    ensures DueTo(pending, ts, a) == DueTo(pending, us, a)
  {
    assert TicketsTo(pending, ts, a) == TicketsTo(pending, us, a);
  }

  lemma {:induction false} PayAllLeaves(c: Coins, ts: seq<Ticket>, d: Coins)
    requires d == PayAll(c, ts)
    ensures d.pending == map t | t in c.pending && t !in ts :: c.pending[t]
    ensures d.fee == c.fee && d.staked == c.staked && d.stakes == c.stakes
  {
    if ts != [] {
      var front, t := ts[..|ts| - 1], ts[|ts| - 1];
      PayAllLeaves(c, front, PayAll(c, front));
      assert forall u :: u in ts <==> u in front || u == t;
    }
  }

  lemma NothingDue(pending: map<Ticket, nat>, a: Addr)
    ensures DueTo(pending, {}, a) == 0
  {
    assert TicketsTo(pending, {}, a) == map[];
  }

  lemma PayTicketGives(c: Coins, t: Ticket, a: Addr)
    requires t in c.pending
    ensures Get(PayTicket(c, t).balances, a) == Get(c.balances, a) + if t.staker == a then c.pending[t] else 0
  {
  }

  /** Whatever is to be paid, in whatever order, every account gets exactly its own tickets. */
  lemma {:induction false} PayAllGives(c: Coins, ts: seq<Ticket>, d: Coins, paid: set<Ticket>, a: Addr)
    requires d == PayAll(c, ts) && paid == set t | t in ts
    ensures Get(d.balances, a) == Get(c.balances, a) + DueTo(c.pending, paid, a)
  {
    if ts == [] {
      NothingDue(c.pending, a);
    } else {
      var front, t := ts[..|ts| - 1], ts[|ts| - 1];
      var e, done := PayAll(c, front), set u | u in front;
      PayAllGives(c, front, e, done, a);
      PayAllLeaves(c, front, e);
      assert ts == front + [t] && paid == done + {t};
      if t in e.pending {
        PayTicketGives(e, t, a);
        DueMore(c.pending, done, t, a);
      } else {
        DueSame(c.pending, done, paid, a);
      }
    }
  }

  /** Pays every ticket of a height, in any order: to every account exactly its own, none is left, all others are, and
      nothing is made or lost. */
  method PayDue(c: Coins, ts: seq<Ticket>, height: nat) returns (d: Coins)
    requires Kept(c) && Due(c, ts, height)
    ensures d == PayAll(c, ts) && Kept(d) && Supply(d) == Supply(c)
    ensures forall a :: Get(d.balances, a) == Get(c.balances, a) + DueTo(c.pending, TicketsOf(c.pending, height), a)
    ensures d.pending == map t | t in c.pending && t.height != height :: c.pending[t]
    ensures d.fee == c.fee && d.staked == c.staked && d.stakes == c.stakes
  {
    d := c;
    ghost var done: seq<Ticket> := [];
    for i := 0 to |ts|
      invariant done == ts[..i] && d == PayAll(c, done)
      invariant forall t :: t in d.pending <==> t in c.pending && t !in done
      invariant forall t :: t in d.pending ==> d.pending[t] == c.pending[t]
      invariant d.fee == c.fee && d.staked == c.staked && d.stakes == c.stakes
    {
      NextPrefix(ts, i);
      assert ts[i] in c.pending && (done + [ts[i]])[..i] == done;
      d, done := PayTicket(d, ts[i]), done + [ts[i]];
    }
    assert done == ts;
    PayAllConserves(c, ts, d);
    assert TicketsOf(c.pending, height) == set t | t in ts;
    forall a ensures Get(d.balances, a) == Get(c.balances, a) + DueTo(c.pending, TicketsOf(c.pending, height), a) {
      PayAllGives(c, ts, d, TicketsOf(c.pending, height), a);
    }
  }

  /** A transaction with its own fee, executed at its own height, or the payment of tickets in some order. */
  datatype Event = Execute(tx: Tx, fee: nat, height: nat, wait: nat) | Flush(order: seq<Ticket>)

  function Next(c: Coins, e: Event): Coins {
    match e
    case Execute(tx, fee, height, wait) => ExecuteTx(c, tx, fee, height, wait).coins
    case Flush(order) => PayAll(c, order)
  }

  function After(c: Coins, es: seq<Event>): Coins {
    if es == [] then c else Next(After(c, es[..|es| - 1]), es[|es| - 1])
  }

  /** Over every run of transactions and payments, whatever fails on the way, nothing is made or lost, and every sum
      that a formulator keeps is that of its stakes. */
  lemma {:induction false} RunConserves(c: Coins, es: seq<Event>, d: Coins)
    requires Kept(c) && d == After(c, es)
    ensures Kept(d) && Supply(d) == Supply(c)
  {
    if es != [] {
      var m, e := After(c, es[..|es| - 1]), es[|es| - 1];
      RunConserves(c, es[..|es| - 1], m);
      match e
      case Execute(tx, fee, height, wait) => ExecuteConserves(m, tx, fee, height, wait);
      case Flush(order) => PayAllConserves(m, order, d);
    }
  }

  // ---- a hyper formulator goes ----

  datatype Closed<+T> = Closed(value: T) | InvalidStakingAddress | CriticalStakingAmount

  /** Midway: the stakes of `done` are off the sum and in the balances of their stakers, and `rest` are the others. */
  ghost predicate Given(m: map<Addr, nat>, was: map<Addr, nat>, done: seq<Addr>, rest: map<Addr, nat>,
                        now: map<Addr, nat>, left: nat, gap: int) {
    && left == Sum(rest) + gap && Sum(now) + Sum(rest) == Sum(was) + Sum(m)
    && StillToGive(m, done, rest) && GivenTo(m, was, done, now)
  }

  ghost predicate StillToGive(m: map<Addr, nat>, done: seq<Addr>, rest: map<Addr, nat>) {
    && (forall a :: a in rest <==> a in m && a !in done)
    && (forall a :: a in rest ==> rest[a] == m[a])
    && (forall a :: a in done ==> Get(m, a) > 0)
  }

  ghost predicate GivenTo(m: map<Addr, nat>, was: map<Addr, nat>, done: seq<Addr>, now: map<Addr, nat>) {
    forall a :: Get(now, a) == Get(was, a) + if a in done then Get(m, a) else 0
  }

  lemma GiveTo(m: map<Addr, nat>, was: map<Addr, nat>, done: seq<Addr>, now: map<Addr, nat>, a: Addr,
               more: seq<Addr>, next: map<Addr, nat>)
    requires GivenTo(m, was, done, now) && a in m && a !in done && more == done + [a]
    requires next == Store(now, a, Get(now, a) + m[a])
    ensures GivenTo(m, was, more, next)
  {
  }

  lemma GiveNext(m: map<Addr, nat>, was: map<Addr, nat>, done: seq<Addr>, rest: map<Addr, nat>, now: map<Addr, nat>,
                 left: nat, gap: int, a: Addr, more: seq<Addr>, next: map<Addr, nat>)
    requires Given(m, was, done, rest, now, left, gap) && a in m && m[a] > 0 && a !in done
    requires more == done + [a] && next == Store(now, a, Get(now, a) + m[a])
    ensures m[a] <= left - gap && (m[a] <= left ==> Given(m, was, more, rest - {a}, next, left - m[a], gap))
  {
    GiveTo(m, was, done, now, a, more, next);
    OneLess(m, done, rest, a, more);
    SumRemove(rest, a);
    StoreSum(now, a, Get(now, a) + m[a]);
  }

  lemma OneLess(m: map<Addr, nat>, done: seq<Addr>, rest: map<Addr, nat>, a: Addr, more: seq<Addr>)
    requires StillToGive(m, done, rest) && a in m && m[a] > 0 && a !in done && more == done + [a]
    ensures a in rest && rest[a] == m[a] && StillToGive(m, more, rest - {a})
  {
  }

  lemma GivenAll(m: map<Addr, nat>, was: map<Addr, nat>, done: seq<Addr>, rest: map<Addr, nat>, now: map<Addr, nat>,
                 left: nat, gap: int)
    requires Given(m, was, done, rest, now, left, gap) && forall a :: a in m ==> a in done
    ensures left == gap && Sum(now) == Sum(was) + Sum(m) && forall a :: Get(now, a) == Get(was, a) + Get(m, a)
  {
    assert rest == map[];
  }

  /** Gives one stake back: off the sum and onto the balance. It fails only when the sum is too small for all stakes. */
  method GiveOne(m: map<Addr, nat>, a: Addr, now: map<Addr, nat>, left: nat,
                 ghost was: map<Addr, nat>, ghost done: seq<Addr>, ghost rest: map<Addr, nat>, ghost gap: int)
    returns (ok: bool, next: map<Addr, nat>, remain: nat)
    requires Given(m, was, done, rest, now, left, gap) && a in m && m[a] > 0 && a !in done
    ensures if ok then Given(m, was, done + [a], rest - {a}, next, remain, gap) else gap < 0
  {
    next := Store(now, a, Get(now, a) + m[a]);
    GiveNext(m, was, done, rest, now, left, gap, a, done + [a], next);
    if left < m[a] { return false, now, left; }
    ok, remain := true, left - m[a];
  }

  /** Gives all stakes back, one by one, each to its own staker, and takes each off the sum, which must end at zero. It
      succeeds if and only if the sum is right and nobody is listed without a stake. */
  method GiveBack(balances: map<Addr, nat>, m: map<Addr, nat>, sum: nat, stakers: seq<Addr>)
    returns (r: Closed<map<Addr, nat>>)
    requires Distinct(stakers) && forall a :: a in m ==> a in stakers
    ensures r == InvalidStakingAddress ==> exists a :: a in stakers && Get(m, a) == 0
    ensures r == CriticalStakingAmount ==> sum != Sum(m)
    ensures r.Closed? ==> sum == Sum(m) && forall a :: a in stakers ==> Get(m, a) > 0
    ensures r.Closed? ==> forall a :: Get(r.value, a) == Get(balances, a) + Get(m, a)
    ensures r.Closed? ==> Sum(r.value) == Sum(balances) + sum
  {
    var left, now := sum, balances;
    ghost var done, rest, gap := [], m, sum - Sum(m);
    for i := 0 to |stakers|
      invariant done == stakers[..i] && Given(m, balances, done, rest, now, left, gap)
    {
      var a := stakers[i];
      if Get(m, a) == 0 { return InvalidStakingAddress; }
      NextPrefix(stakers, i);
      var ok;
      ok, now, left := GiveOne(m, a, now, left, balances, done, rest, gap);
      if !ok { return CriticalStakingAmount; }
      rest, done := rest - {a}, done + [a];
    }
    assert done == stakers;
    GivenAll(m, balances, done, rest, now, left, gap);
    if left != 0 { return CriticalStakingAmount; }
    r := Closed(now);
  }

  /** The account of the formulator goes when all stakes are given back. */
  method CloseHyper(c: Coins, h: Addr, stakers: seq<Addr>) returns (r: Closed<Coins>)
    requires h in c.stakes && h in c.staked && Distinct(stakers)
    requires forall a :: a in c.stakes[h].amounts ==> a in stakers
    ensures r.Closed? <==>
      c.staked[h] == Sum(c.stakes[h].amounts) && forall a :: a in stakers ==> Get(c.stakes[h].amounts, a) > 0
    ensures Kept(c) ==> r != CriticalStakingAmount
    ensures r.Closed? ==>
      && Supply(r.value) == Supply(c) && (Kept(c) ==> Kept(r.value))
      && (forall a :: Get(r.value.balances, a) == Get(c.balances, a) + Amount(c.stakes[h], a))
      && r.value == c.(balances := r.value.balances, staked := c.staked - {h}, stakes := c.stakes - {h})
  {
    var b := GiveBack(c.balances, c.stakes[h].amounts, c.staked[h], stakers);
    match b
    case Closed(now) =>
      SumWithout(c.staked, h);
      r := Closed(c.(balances := now, staked := c.staked - {h}, stakes := c.stakes - {h}));
    case InvalidStakingAddress => r := InvalidStakingAddress;
    case CriticalStakingAmount => r := CriticalStakingAmount;
  }

  // ---- stakes that change without their sum ----

  /** A reward that is staked at once is added to the stakes only. */
  function AutoStake(c: Coins, h: Addr, a: Addr, v: nat): Coins
    requires h in c.stakes
  {
    c.(stakes := c.stakes[h := Add(c.stakes[h], a, v)])
  }

  /** The stake of an account that is gone is taken from the stakes only. */
  function DropStaker(c: Coins, h: Addr, a: Addr): Coins
    requires h in c.stakes
  {
    var r := Sub(c.stakes[h], a, Amount(c.stakes[h], a));
    if r.Ok? then c.(stakes := c.stakes[h := r.index]) else c
  }

  /** Either leaves the sum of the formulator right if and only if it moves nothing. */
  lemma AutoStakeIff(c: Coins, h: Addr, a: Addr, v: nat)
    requires Kept(c) && h in c.stakes
    ensures Kept(AutoStake(c, h, a, v)) <==> v == 0
  {
    AddRight(c.stakes[h], c.staked[h], a, v);
  }

  lemma DropStakerIff(c: Coins, h: Addr, a: Addr)
    requires Kept(c) && h in c.stakes
    ensures Kept(DropStaker(c, h, a)) <==> Amount(c.stakes[h], a) == 0
  {
    SubRight(c.stakes[h], c.staked[h], a, Amount(c.stakes[h], a));
  }

  // ---- stakes that become a formulator ----

  /** The first `n` stakes taken off their formulators. */
  function TakeStakes(c: Coins, from: Addr, hypers: seq<Addr>, amounts: seq<nat>, n: nat): Option<Coins>
    requires n <= |hypers| == |amounts|
  {
    if n == 0 then Some(c)
    else
      var d := TakeStakes(c, from, hypers, amounts, n - 1);
      if d.None? then None else TakeStake(d.value, from, hypers[n - 1], amounts[n - 1])
  }

  lemma {:induction false} TakeStakesKept(c: Coins, from: Addr, hypers: seq<Addr>, amounts: seq<nat>, n: nat,
                                          d: Option<Coins>)
    requires Kept(c) && n <= |hypers| == |amounts| && d == TakeStakes(c, from, hypers, amounts, n)
    ensures d.Some? ==> Kept(d.value)
  {
    if n > 0 && d.Some? {
      var e := TakeStakes(c, from, hypers, amounts, n - 1);
      TakeStakesKept(c, from, hypers, amounts, n - 1, e);
      TakeStakeKept(e.value, from, hypers[n - 1], amounts[n - 1]);
    }
  }

  /** What is taken is all that is missing afterwards. */
  lemma {:induction false} TakeStakesSupply(c: Coins, from: Addr, hypers: seq<Addr>, amounts: seq<nat>, n: nat,
                                            d: Option<Coins>)
    requires n <= |hypers| == |amounts| && d == TakeStakes(c, from, hypers, amounts, n)
    ensures d.Some? ==> Supply(d.value) + Total(amounts[..n]) == Supply(c)
  {
    if n > 0 && d.Some? {
      var e := TakeStakes(c, from, hypers, amounts, n - 1);
      TakeStakesSupply(c, from, hypers, amounts, n - 1, e);
      TakeStakeSupply(e.value, from, hypers[n - 1], amounts[n - 1]);
      assert amounts[..n][..n - 1] == amounts[..n - 1];
    }
  }

  /** What the first `n` requests ask of one formulator. */
  function Asked(hypers: seq<Addr>, amounts: seq<nat>, n: nat, h: Addr): nat
    requires n <= |hypers| == |amounts|
  {
    if n == 0 then 0 else Asked(hypers, amounts, n - 1, h) + if hypers[n - 1] == h then amounts[n - 1] else 0
  }

  predicate Suffices(c: Coins, from: Addr, h: Addr, v: nat) {
    h in c.stakes && v <= Amount(c.stakes[h], from)
  }

  /** Of every formulator no more is asked than is staked there. */
  predicate StakesSuffice(c: Coins, from: Addr, hypers: seq<Addr>, amounts: seq<nat>, n: nat)
    requires n <= |hypers| == |amounts|
  {
    forall i :: 0 <= i < n ==> Suffices(c, from, hypers[i], Asked(hypers, amounts, n, hypers[i]))
  }

  lemma TakeStakeLeaves(c: Coins, from: Addr, h: Addr, v: nat, d: Option<Coins>, g: Addr)
    requires Kept(c) && d == TakeStake(c, from, h, v) && d.Some?
    ensures g in d.value.stakes <==> g in c.stakes
    ensures g in c.stakes ==> Amount(d.value.stakes[g], from) == Amount(c.stakes[g], from) - if g == h then v else 0
  {
    SubListed(c.stakes[h], from, v);
  }

  lemma {:induction false} TakeStakesLeave(c: Coins, from: Addr, hypers: seq<Addr>, amounts: seq<nat>, n: nat,
                                           d: Option<Coins>, g: Addr)
    requires Kept(c) && n <= |hypers| == |amounts| && d == TakeStakes(c, from, hypers, amounts, n) && d.Some?
    ensures g in d.value.stakes <==> g in c.stakes
    ensures g in c.stakes ==>
      Amount(d.value.stakes[g], from) + Asked(hypers, amounts, n, g) == Amount(c.stakes[g], from)
  {
    if n > 0 {
      var e := TakeStakes(c, from, hypers, amounts, n - 1);
      TakeStakesLeave(c, from, hypers, amounts, n - 1, e, g);
      TakeStakesKept(c, from, hypers, amounts, n - 1, e);
      TakeStakeLeaves(e.value, from, hypers[n - 1], amounts[n - 1], d, g);
    }
  }

  lemma LastTaken(c: Coins, from: Addr, hypers: seq<Addr>, amounts: seq<nat>, n: nat, e: Option<Coins>, h: Addr)
    requires Kept(c) && n < |hypers| == |amounts| && h == hypers[n]
    requires e == TakeStakes(c, from, hypers, amounts, n) && e.Some?
    ensures TakeStakes(c, from, hypers, amounts, n + 1).Some? <==>
      Suffices(c, from, h, Asked(hypers, amounts, n + 1, h))
  {
    TakeStakesKept(c, from, hypers, amounts, n, e);
    TakeStakesLeave(c, from, hypers, amounts, n, e, h);
    TakeStakeSucceeds(e.value, from, h, amounts[n]);
  }

  lemma SufficeStep(c: Coins, from: Addr, hypers: seq<Addr>, amounts: seq<nat>, n: nat)
    requires n < |hypers| == |amounts|
    ensures StakesSuffice(c, from, hypers, amounts, n + 1) <==>
      && StakesSuffice(c, from, hypers, amounts, n)
      && Suffices(c, from, hypers[n], Asked(hypers, amounts, n + 1, hypers[n]))
  {
    if StakesSuffice(c, from, hypers, amounts, n + 1) {
      forall i | 0 <= i < n ensures Suffices(c, from, hypers[i], Asked(hypers, amounts, n, hypers[i])) {
        assert Suffices(c, from, hypers[i], Asked(hypers, amounts, n + 1, hypers[i]));
      }
    }
  }

  /** It succeeds if and only if no formulator is asked for more than is staked there. */
  lemma {:induction false} TakeStakesIff(c: Coins, from: Addr, hypers: seq<Addr>, amounts: seq<nat>, n: nat)
    requires Kept(c) && n <= |hypers| == |amounts|
    ensures TakeStakes(c, from, hypers, amounts, n).Some? <==> StakesSuffice(c, from, hypers, amounts, n)
  {
    if n > 0 {
      TakeStakesIff(c, from, hypers, amounts, n - 1);
      TakeOneIff(c, from, hypers, amounts, n - 1, TakeStakes(c, from, hypers, amounts, n - 1));
    }
  }

  lemma TakeOneIff(c: Coins, from: Addr, hypers: seq<Addr>, amounts: seq<nat>, n: nat, e: Option<Coins>)
    requires Kept(c) && n < |hypers| == |amounts| && e == TakeStakes(c, from, hypers, amounts, n)
    requires e.Some? <==> StakesSuffice(c, from, hypers, amounts, n)
    ensures TakeStakes(c, from, hypers, amounts, n + 1).Some? <==> StakesSuffice(c, from, hypers, amounts, n + 1)
  {
    SufficeStep(c, from, hypers, amounts, n);
    if e.Some? { LastTaken(c, from, hypers, amounts, n, e, hypers[n]); }
  }

  predicate Covered(c: Coins, from: Addr, h: Addr, v: nat) {
    Suffices(c, from, h, v) && h in c.staked && v <= c.staked[h]
  }

  /** What is checked before: every single stake is large enough, whatever the others ask, so is the sum of its
      formulator, and no amount is zero. */
  predicate Transmutable(c: Coins, from: Addr, hypers: seq<Addr>, amounts: seq<nat>) {
    && |hypers| == |amounts| > 0
    && forall i :: 0 <= i < |hypers| ==> amounts[i] > 0 && Covered(c, from, hypers[i], amounts[i])
  }

  lemma SufficesCovered(c: Coins, from: Addr, h: Addr, v: nat)
    requires Kept(c) && Suffices(c, from, h, v)
    ensures Covered(c, from, h, v)
  {
    AmountInSum(c.stakes[h], from);
  }

  /** The coins after the stakes that could be taken before the first one that could not. */
  function Taken(c: Coins, from: Addr, hypers: seq<Addr>, amounts: seq<nat>, n: nat): Outcome
    requires n <= |hypers| == |amounts|
  {
    if n == 0 then Outcome(c, true)
    else
      var o := Taken(c, from, hypers, amounts, n - 1);
      if !o.ok then o
      else
        var d := TakeStake(o.coins, from, hypers[n - 1], amounts[n - 1]);
        if d.None? then Outcome(o.coins, false) else Outcome(d.value, true)
  }

  /** Takes stakes off several formulators, for the deposit of a new one. There is no snapshot: what was taken before a
      failure stays taken. */
  method Transmute(c: Coins, from: Addr, hypers: seq<Addr>, amounts: seq<nat>) returns (d: Coins, ok: bool)
    requires |hypers| == |amounts|
    ensures Outcome(d, ok) == Taken(c, from, hypers, amounts, |hypers|)
    ensures Kept(c) ==> Kept(d) && (ok <==> StakesSuffice(c, from, hypers, amounts, |hypers|))
  {
    d := c;
    if Kept(c) {
      TakenKept(c, from, hypers, amounts, |hypers|);
      TakenIff(c, from, hypers, amounts, |hypers|);
    }
    for i := 0 to |hypers|
      invariant Outcome(d, true) == Taken(c, from, hypers, amounts, i)
    {
      var e := TakeStake(d, from, hypers[i], amounts[i]);
      if e.None? {
        FailedStays(c, from, hypers, amounts, i + 1, |hypers|);
        return d, false;
      }
      d := e.value;
    }
    ok := true;
  }

  lemma {:induction false} FailedStays(c: Coins, from: Addr, hypers: seq<Addr>, amounts: seq<nat>, i: nat, n: nat)
    requires i <= n <= |hypers| == |amounts| && !Taken(c, from, hypers, amounts, i).ok
    ensures Taken(c, from, hypers, amounts, n) == Taken(c, from, hypers, amounts, i)
    decreases n
  {
    if i < n { FailedStays(c, from, hypers, amounts, i, n - 1); }
  }

  lemma {:induction false} TakenKept(c: Coins, from: Addr, hypers: seq<Addr>, amounts: seq<nat>, n: nat)
    requires Kept(c) && n <= |hypers| == |amounts|
    ensures Kept(Taken(c, from, hypers, amounts, n).coins)
  {
    if n > 0 {
      TakenKept(c, from, hypers, amounts, n - 1);
      var o := Taken(c, from, hypers, amounts, n - 1);
      if o.ok && TakeStake(o.coins, from, hypers[n - 1], amounts[n - 1]).Some? {
        TakeStakeKept(o.coins, from, hypers[n - 1], amounts[n - 1]);
      }
    }
  }

  /** As long as nothing fails these are the stakes taken one after another. */
  lemma {:induction false} TakenIs(c: Coins, from: Addr, hypers: seq<Addr>, amounts: seq<nat>, n: nat, o: Outcome)
    requires n <= |hypers| == |amounts| && o == Taken(c, from, hypers, amounts, n)
    ensures TakeStakes(c, from, hypers, amounts, n) == if o.ok then Some(o.coins) else None
  {
    if n > 0 { TakenIs(c, from, hypers, amounts, n - 1, Taken(c, from, hypers, amounts, n - 1)); }
  }

  lemma TakenIff(c: Coins, from: Addr, hypers: seq<Addr>, amounts: seq<nat>, n: nat)
    requires Kept(c) && n <= |hypers| == |amounts|
    ensures Taken(c, from, hypers, amounts, n).ok <==> StakesSuffice(c, from, hypers, amounts, n)
  {
    TakenIs(c, from, hypers, amounts, n, Taken(c, from, hypers, amounts, n));
    TakeStakesIff(c, from, hypers, amounts, n);
  }

  /** Nothing is made, and once a stake above zero has been taken something is missing. */
  lemma {:induction false} TakenSupply(c: Coins, from: Addr, hypers: seq<Addr>, amounts: seq<nat>, n: nat)
    requires Transmutable(c, from, hypers, amounts) && 0 < n <= |hypers|
    ensures Supply(Taken(c, from, hypers, amounts, n).coins) < Supply(c)
  {
    var o := Taken(c, from, hypers, amounts, n - 1);
    if n == 1 {
      assert Covered(c, from, hypers[0], amounts[0]);
      TakeStakeSupply(c, from, hypers[0], amounts[0]);
    } else {
      TakenSupply(c, from, hypers, amounts, n - 1);
      if o.ok && TakeStake(o.coins, from, hypers[n - 1], amounts[n - 1]).Some? {
        TakeStakeSupply(o.coins, from, hypers[n - 1], amounts[n - 1]);
      }
    }
  }

  /** For a transmutation that passes its checks: what is left and the deposit of the new formulator, which there is
      only on success, add up to what there was, if and only if of every formulator no more is asked in all than is
      staked. */
  lemma TransmuteIff(c: Coins, from: Addr, hypers: seq<Addr>, amounts: seq<nat>, o: Outcome, deposit: nat)
    requires Kept(c) && Transmutable(c, from, hypers, amounts) && o == Taken(c, from, hypers, amounts, |hypers|)
    requires deposit == if o.ok then Total(amounts) else 0
    ensures Supply(o.coins) + deposit == Supply(c) <==> StakesSuffice(c, from, hypers, amounts, |hypers|)
  {
    TakenIff(c, from, hypers, amounts, |hypers|);
    DepositIff(c, from, hypers, amounts, o, deposit);
  }

  /** The same whatever the books are like, by whether it succeeds. */
  lemma DepositIff(c: Coins, from: Addr, hypers: seq<Addr>, amounts: seq<nat>, o: Outcome, deposit: nat)
    requires Transmutable(c, from, hypers, amounts) && o == Taken(c, from, hypers, amounts, |hypers|)
    requires deposit == if o.ok then Total(amounts) else 0
    ensures Supply(o.coins) + deposit <= Supply(c) && (Supply(o.coins) + deposit == Supply(c) <==> o.ok)
  {
    if o.ok {
      TakenIs(c, from, hypers, amounts, |hypers|, o);
      TakeStakesSupply(c, from, hypers, amounts, |hypers|, Some(o.coins));
      assert amounts[..|hypers|] == amounts;
    } else {
      TakenSupply(c, from, hypers, amounts, |hypers|);
    }
  }

  lemma AskedTwice(h: Addr, v: nat, w: nat, hypers: seq<Addr>, amounts: seq<nat>)
    requires hypers == [h, h] && amounts == [v, w]
    ensures Asked(hypers, amounts, 2, h) == v + w
  {
    assert Asked(hypers, amounts, 1, h) == v;
  }

  lemma FirstTaken(c: Coins, from: Addr, h: Addr, v: nat, hypers: seq<Addr>, amounts: seq<nat>)
    requires Kept(c) && Suffices(c, from, h, v) && |hypers| == |amounts| > 0 && hypers[0] == h && amounts[0] == v
    ensures Taken(c, from, hypers, amounts, 1).ok && Supply(Taken(c, from, hypers, amounts, 1).coins) + v == Supply(c)
  {
    assert Taken(c, from, hypers, amounts, 0) == Outcome(c, true);
    TakeStakeSucceeds(c, from, h, v);
    TakeStakeSupply(c, from, h, v);
  }

  /** One formulator named twice, each amount staked there and both together not: the checks pass, it fails, and the
      first amount is gone. */
  lemma TwiceTheSame(c: Coins, from: Addr, h: Addr, v: nat, w: nat, hypers: seq<Addr>, amounts: seq<nat>, o: Outcome)
    requires Kept(c) && Suffices(c, from, h, v) && Suffices(c, from, h, w) && v > 0 && w > 0
    requires !Suffices(c, from, h, v + w)
    requires hypers == [h, h] && amounts == [v, w] && o == Taken(c, from, hypers, amounts, 2)
    ensures Transmutable(c, from, hypers, amounts) && !o.ok && Supply(o.coins) + v == Supply(c)
  {
    SufficesCovered(c, from, h, v);
    SufficesCovered(c, from, h, w);
    AskedTwice(h, v, w, hypers, amounts);
    TakenIff(c, from, hypers, amounts, 2);
    assert !Suffices(c, from, hypers[0], Asked(hypers, amounts, 2, hypers[0]));
    FirstTaken(c, from, h, v, hypers, amounts);
  }
}
