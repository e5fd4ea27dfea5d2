/** The coins where the source keeps them: under the keys of the layered context. A transaction works on layers of its
    own, and committing these does not lift a tombstone of the layer below. */
module LedgerLayers {
  import opened Options
  import opened Sums
  import opened Overlay
  import Ledger
  import StakeIndex

  type Coins = Ledger.Coins
  type Index = StakeIndex.Index
  type Ticket = Ledger.Ticket

  // ---- operations on the stack ----

  function Amount(s: seq<Layer>, b: Base, k: Key): nat {
    var v := ReadData(s, b, k);
    if v.Some? then v.value else 0
  }

  /** The bytes of zero are empty, and setting these deletes. */
  function Stored(n: nat): Option<Data> { if n == 0 then None else Some(n) }

  function SetAmount(s: seq<Layer>, k: Key, n: nat): seq<Layer>
    requires s != []
  {
    SetData(s, k, Stored(n))
  }

  function AddBalance(s: seq<Layer>, b: Base, a: Addr, v: nat): seq<Layer>
    requires s != []
  {
    SetAmount(s, Balance(a), Amount(s, b, Balance(a)) + v)
  }

  function SubBalance(s: seq<Layer>, b: Base, a: Addr, v: nat): Option<seq<Layer>>
    requires s != []
  {
    var n := Amount(s, b, Balance(a));
    if n < v then None else Some(SetAmount(s, Balance(a), n - v))
  }

  /** A newcomer gets the next number. */
  function List(s: seq<Layer>, b: Base, h: Addr, a: Addr): seq<Layer>
    requires s != []
  {
    var n := Amount(s, b, StakeCount(h));
    SetAmount(SetData(SetData(s, StakeNumber(h, a), Some(n)), StakeReverse(h, n), Some(a)), StakeCount(h), n + 1)
  }

  function Enter(s: seq<Layer>, b: Base, h: Addr, a: Addr): seq<Layer>
    requires s != []
  {
    if ReadData(s, b, StakeNumber(h, a)).Some? then s else List(s, b, h, a)
  }

  function AddStaking(s: seq<Layer>, b: Base, h: Addr, a: Addr, v: nat): seq<Layer>
    requires s != []
  {
    var t := Enter(s, b, h, a);
    SetAmount(t, StakeAmount(h, a), Amount(t, b, StakeAmount(h, a)) + v)
  }

  /** The one with the last number takes the number `n`. */
  function Swap(s: seq<Layer>, b: Base, h: Addr, n: nat, last: nat): seq<Layer>
    requires s != []
  {
    var swap := Amount(s, b, StakeReverse(h, last));
    SetData(SetData(s, StakeReverse(h, n), Some(swap)), StakeNumber(h, swap), Some(n))
  }

  /** The rest of leaving the index, once the last one has the number. */
  function Leave(s: seq<Layer>, h: Addr, a: Addr, last: nat): seq<Layer>
    requires s != []
  {
    SetAmount(SetData(SetData(s, StakeNumber(h, a), None), StakeReverse(h, last), None), StakeCount(h), last)
  }

  function Unlist(s: seq<Layer>, b: Base, h: Addr, a: Addr, n: nat): seq<Layer>
    requires s != []
  {
    var last := StakeIndex.Before(Amount(s, b, StakeCount(h)));
    Leave(if n == last then s else Swap(s, b, h, n, last), h, a, last)
  }

  function SubStaking(s: seq<Layer>, b: Base, h: Addr, a: Addr, v: nat): Option<seq<Layer>>
    requires s != []
  {
    var total, n := Amount(s, b, StakeAmount(h, a)), ReadData(s, b, StakeNumber(h, a));
    if total < v then None
    else
      var t := if total == v && n.Some? then Unlist(s, b, h, a, n.value) else s;
      Some(SetAmount(t, StakeAmount(h, a), total - v))
  }

  predicate IsFormulator(f: Found) { f.Found? && f.acc.Formulator? }

  function TicketKey(t: Ticket): Key { Unstaking(t.height, t.staker, t.hyper) }

  function AddTicket(s: seq<Layer>, b: Base, t: Ticket, v: nat): seq<Layer>
    requires s != []
  {
    SetData(s, TicketKey(t), Some(Amount(s, b, TicketKey(t)) + v))
  }

  /** A stake joins the index, and the sum `n` that the account keeps grows by it. */
  function AddStake(s: seq<Layer>, b: Base, h: Addr, a: Addr, v: nat, n: nat): seq<Layer>
    requires s != []
  {
    PutAccount(AddStaking(s, b, h, a, v), h, Formulator(n + v))
  }

  function Transfer(s: seq<Layer>, b: Base, from: Addr, to: Addr, v: nat): Option<seq<Layer>>
    requires s != []
  {
    var t := SubBalance(s, b, from, v);
    if t.None? then None else Some(AddBalance(t.value, b, to, v))
  }

  function Stake(s: seq<Layer>, b: Base, from: Addr, h: Addr, v: nat): Option<seq<Layer>>
    requires s != []
  {
    var f, t := ReadAccount(s, b, h), SubBalance(s, b, from, v);
    if !IsFormulator(f) || t.None? then None else Some(AddStake(t.value, b, h, from, v, f.acc.staked))
  }

  function TakeStake(s: seq<Layer>, b: Base, from: Addr, h: Addr, v: nat): Option<seq<Layer>>
    requires s != []
  {
    var f, t := ReadAccount(s, b, h), SubStaking(s, b, h, from, v);
    if !IsFormulator(f) || t.None? || f.acc.staked < v then None
    else Some(PutAccount(t.value, h, Formulator(f.acc.staked - v)))
  }

  function Unstake(s: seq<Layer>, b: Base, from: Addr, h: Addr, v: nat, height: nat): Option<seq<Layer>>
    requires s != []
  {
    var t := TakeStake(s, b, from, h, v);
    if t.None? then None else Some(AddTicket(t.value, b, Ledger.Ticket(height, from, h), v))
  }

  function TakeTicket(s: seq<Layer>, b: Base, t: Ticket, v: nat): Option<seq<Layer>>
    requires s != []
  {
    var n := ReadData(s, b, TicketKey(t));
    if n.None? || n.value < v then None
    else Some(SetData(s, TicketKey(t), if n.value == 0 then None else Some(n.value - v)))
  }

  function TakeBack(s: seq<Layer>, b: Base, from: Addr, h: Addr, v: nat, height: nat): Option<seq<Layer>>
    requires s != []
  {
    var f, t := ReadAccount(s, b, h), TakeTicket(s, b, Ledger.Ticket(height, from, h), v);
    if !IsFormulator(f) || t.None? then None else Some(AddStake(t.value, b, h, from, v, f.acc.staked))
  }

  /** What a transaction does once its fee is paid. */
  function Act(s: seq<Layer>, b: Base, tx: Ledger.Tx, height: nat, wait: nat): Option<seq<Layer>>
    requires s != []
  {
    match tx
    case TransferTx(from, to, v) => Transfer(s, b, from, to, v)
    case StakeTx(from, h, v) => Stake(s, b, from, h, v)
    case UnstakeTx(from, h, v) => Unstake(s, b, from, h, v, height + wait)
    case TakeBackTx(from, h, v, at) => TakeBack(s, b, from, h, v, at)
  }

  datatype Outcome = Outcome(stack: seq<Layer>, ok: bool)

  /** The layer of a transaction once the fee is paid. */
  function Paid(s: seq<Layer>, b: Base, from: Addr, fee: nat): Option<seq<Layer>>
    requires s != []
  {
    var t := SubBalance(s, b, from, fee);
    if t.None? then None else Some(SetAmount(t.value, CollectedFee, Amount(t.value, b, CollectedFee) + fee))
  }

  /** The rest of a transaction, on a layer above the one on which the fee is paid, which goes when it fails. */
  function Rest(u: seq<Layer>, b: Base, tx: Ledger.Tx, height: nat, wait: nat): Outcome
    requires u != []
  {
    var f, sn := Act(Snapshot(u), b, tx, height, wait), |u| + 1;
    if f.None? then Outcome(Revert(Snapshot(u), sn), false) else Outcome(Commit(f.value, sn), true)
  }

  function WithFee(s: seq<Layer>, b: Base, tx: Ledger.Tx, fee: nat, height: nat, wait: nat): Outcome
    requires s != []
  {
    var u := Paid(s, b, tx.from, fee);
    if u.None? then Outcome(s, false) else Rest(u.value, b, tx, height, wait)
  }

  /** The block keeps what a transaction has done, whether it failed or not. */
  function Execute(s: seq<Layer>, b: Base, tx: Ledger.Tx, fee: nat, height: nat, wait: nat): Outcome
    requires s != []
  {
    var o := WithFee(Snapshot(s), b, tx, fee, height, wait);
    Outcome(Commit(o.stack, |s| + 1), o.ok)
  }

  predicate StakeCovers(s: seq<Layer>, b: Base, from: Addr, h: Addr, v: nat) {
    var f := ReadAccount(s, b, h);
    IsFormulator(f) && v <= Amount(s, b, StakeAmount(h, from)) && v <= f.acc.staked
  }

  /** What is checked before a transmutation, entry by entry. */
  predicate MayTransmute(s: seq<Layer>, b: Base, from: Addr, hypers: seq<Addr>, amounts: seq<nat>) {
    && |hypers| == |amounts| > 0
    && forall i :: 0 <= i < |hypers| ==> amounts[i] > 0 && StakeCovers(s, b, from, hypers[i], amounts[i])
  }

  /** The stakes that are taken, on the layer of the transaction itself, before the first one that cannot be. */
  function Taken(s: seq<Layer>, b: Base, from: Addr, hypers: seq<Addr>, amounts: seq<nat>, n: nat): (o: Outcome)
    requires s != [] && n <= |hypers| == |amounts|
    ensures o.stack != []
  {
    if n == 0 then Outcome(s, true)
    else
      var o := Taken(s, b, from, hypers, amounts, n - 1);
      if !o.ok then o
      else
        var t := TakeStake(o.stack, b, from, hypers[n - 1], amounts[n - 1]);
        if t.None? then Outcome(o.stack, false) else Outcome(t.value, true)
  }

  /** A transmutation has no fee and no snapshot inside: what was taken before a failure is committed. */
  function Transmute(s: seq<Layer>, b: Base, from: Addr, hypers: seq<Addr>, amounts: seq<nat>): Outcome
    requires s != []
  {
    if !MayTransmute(s, b, from, hypers, amounts) then Outcome(s, false)
    else
      var o := Taken(Snapshot(s), b, from, hypers, amounts, |hypers|);
      Outcome(Commit(o.stack, |s| + 1), o.ok)
  }

  // ---- what the stack shows ----

  function Lookup<K, V>(m: map<K, V>, k: K): Option<V> { if k in m then Some(m[k]) else None }

  ghost predicate ShowsIndex(s: seq<Layer>, b: Base, h: Addr, x: Index) {
    && (forall a :: ReadData(s, b, StakeAmount(h, a)) == Stored(Get(x.amounts, a)))
    && (forall a :: ReadData(s, b, StakeNumber(h, a)) == Lookup(x.number, a))
    && (forall i :: ReadData(s, b, StakeReverse(h, i)) == Lookup(x.reverse, i))
    && ReadData(s, b, StakeCount(h)) == Stored(x.count)
  }

  ghost predicate ShowsHyper(s: seq<Layer>, b: Base, stakes: map<Addr, Index>, staked: map<Addr, nat>, h: Addr) {
    if h in stakes && h in staked
    then ReadAccount(s, b, h) == Found(Formulator(staked[h])) && ShowsIndex(s, b, h, stakes[h])
    else !(ReadAccount(s, b, h).Found? && ReadAccount(s, b, h).acc.Formulator?)
  }

  ghost predicate ShowsHypers(s: seq<Layer>, b: Base, stakes: map<Addr, Index>, staked: map<Addr, nat>) {
    staked.Keys == stakes.Keys && forall h :: ShowsHyper(s, b, stakes, staked, h)
  }

  ghost predicate ShowsBalances(s: seq<Layer>, b: Base, m: map<Addr, nat>) {
    forall a :: ReadData(s, b, Balance(a)) == Stored(Get(m, a))
  }

  ghost predicate ShowsTickets(s: seq<Layer>, b: Base, p: map<Ticket, nat>) {
    forall t :: ReadData(s, b, TicketKey(t)) == Lookup(p, t)
  }

  /** Every read of the stack gives what the coins have. */
  ghost predicate Holds(s: seq<Layer>, b: Base, c: Coins) {
    && s != []
    && ShowsBalances(s, b, c.balances) && ReadData(s, b, CollectedFee) == Stored(c.fee)
    && ShowsTickets(s, b, c.pending) && ShowsHypers(s, b, c.stakes, c.staked)
  }

  /** Only the top layer differs. */
  predicate SameBelow(s: seq<Layer>, t: seq<Layer>) {
    s != [] && |t| == |s| && t[..|s| - 1] == s[..|s| - 1]
  }

  /** Setting a key changes that read only. */
  ghost predicate SetTo(s: seq<Layer>, b: Base, k: Key, v: Option<Data>, t: seq<Layer>) {
    && SameBelow(s, t)
    && (forall j :: ReadData(t, b, j) == if j == k then v else ReadData(s, b, j))
    && (forall a :: ReadAccount(t, b, a) == ReadAccount(s, b, a))
  }

  lemma SetReads(s: seq<Layer>, b: Base, k: Key, v: Option<Data>, t: seq<Layer>)
    requires s != [] && t == SetData(s, k, v)
    ensures SetTo(s, b, k, v, t)
  {
    forall j ensures ReadData(t, b, j) == if j == k then v else ReadData(s, b, j) { SetDataReads(s, b, k, v, j); }
  }

  predicate AtHyper(k: Key, h: Addr) {
    (k.StakeAmount? || k.StakeNumber? || k.StakeReverse? || k.StakeCount?) && k.h == h
  }

  lemma IndexFrame(s: seq<Layer>, t: seq<Layer>, b: Base, h: Addr, x: Index)
    requires ShowsIndex(s, b, h, x) && forall k :: AtHyper(k, h) ==> ReadData(t, b, k) == ReadData(s, b, k)
    ensures ShowsIndex(t, b, h, x)
  {
  }

  lemma HypersFrame(s: seq<Layer>, t: seq<Layer>, b: Base, stakes: map<Addr, Index>, staked: map<Addr, nat>)
    requires ShowsHypers(s, b, stakes, staked) && forall a :: ReadAccount(t, b, a) == ReadAccount(s, b, a)
    requires forall k, h :: AtHyper(k, h) ==> ReadData(t, b, k) == ReadData(s, b, k)
    ensures ShowsHypers(t, b, stakes, staked)
  {
    forall h ensures ShowsHyper(t, b, stakes, staked, h) {
      assert ShowsHyper(s, b, stakes, staked, h);
      if h in stakes { IndexFrame(s, t, b, h, stakes[h]); }
    }
  }

  lemma BalanceShows(s: seq<Layer>, b: Base, c: Coins, a: Addr, n: nat, t: seq<Layer>)
    requires Holds(s, b, c) && t == SetAmount(s, Balance(a), n)
    ensures SameBelow(s, t) && Holds(t, b, c.(balances := StakeIndex.Store(c.balances, a, n)))
  {
    SetReads(s, b, Balance(a), Stored(n), t);
    HypersFrame(s, t, b, c.stakes, c.staked);
  }

  lemma FeeShows(s: seq<Layer>, b: Base, c: Coins, n: nat, t: seq<Layer>)
    requires Holds(s, b, c) && t == SetAmount(s, CollectedFee, n)
    ensures SameBelow(s, t) && Holds(t, b, c.(fee := n))
  {
    SetReads(s, b, CollectedFee, Stored(n), t);
    HypersFrame(s, t, b, c.stakes, c.staked);
  }

  lemma TicketShows(s: seq<Layer>, b: Base, c: Coins, k: Ticket, v: Option<nat>, t: seq<Layer>)
    requires Holds(s, b, c) && t == SetData(s, TicketKey(k), v)
    ensures SameBelow(s, t)
    ensures Holds(t, b, c.(pending := if v.Some? then c.pending[k := v.value] else c.pending - {k}))
  {
    SetReads(s, b, TicketKey(k), v, t);
    HypersFrame(s, t, b, c.stakes, c.staked);
  }

  // ---- the index ----

  lemma AmountShows(s: seq<Layer>, b: Base, h: Addr, x: Index, a: Addr, n: nat, t: seq<Layer>)
    requires s != [] && ShowsIndex(s, b, h, x) && t == SetAmount(s, StakeAmount(h, a), n)
    ensures SetTo(s, b, StakeAmount(h, a), Stored(n), t)
    ensures ShowsIndex(t, b, h, x.(amounts := StakeIndex.Store(x.amounts, a, n)))
  {
    SetReads(s, b, StakeAmount(h, a), Stored(n), t);
  }

  lemma NumberShows(s: seq<Layer>, b: Base, h: Addr, x: Index, a: Addr, v: Option<nat>, t: seq<Layer>)
    requires s != [] && ShowsIndex(s, b, h, x) && t == SetData(s, StakeNumber(h, a), v)
    ensures SetTo(s, b, StakeNumber(h, a), v, t)
    ensures ShowsIndex(t, b, h, x.(number := if v.Some? then x.number[a := v.value] else x.number - {a}))
  {
    SetReads(s, b, StakeNumber(h, a), v, t);
  }

  lemma ReverseShows(s: seq<Layer>, b: Base, h: Addr, x: Index, i: nat, v: Option<nat>, t: seq<Layer>)
    requires s != [] && ShowsIndex(s, b, h, x) && t == SetData(s, StakeReverse(h, i), v)
    ensures SetTo(s, b, StakeReverse(h, i), v, t)
    ensures ShowsIndex(t, b, h, x.(reverse := if v.Some? then x.reverse[i := v.value] else x.reverse - {i}))
  {
    SetReads(s, b, StakeReverse(h, i), v, t);
  }

  lemma CountShows(s: seq<Layer>, b: Base, h: Addr, x: Index, n: nat, t: seq<Layer>)
    requires s != [] && ShowsIndex(s, b, h, x) && t == SetAmount(s, StakeCount(h), n)
    ensures SetTo(s, b, StakeCount(h), Stored(n), t)
    ensures ShowsIndex(t, b, h, x.(count := n))
  {
    SetReads(s, b, StakeCount(h), Stored(n), t);
  }

  /** All keys but those of the formulator read as before. */
  ghost predicate OnlyHyper(s: seq<Layer>, t: seq<Layer>, b: Base, h: Addr) {
    && SameBelow(s, t)
    && (forall k :: !AtHyper(k, h) ==> ReadData(t, b, k) == ReadData(s, b, k))
    && (forall a :: ReadAccount(t, b, a) == ReadAccount(s, b, a))
  }

  lemma SetOnly(s: seq<Layer>, b: Base, h: Addr, k: Key, v: Option<Data>, r: seq<Layer>, t: seq<Layer>)
    requires OnlyHyper(s, r, b, h) && SetTo(r, b, k, v, t) && AtHyper(k, h)
    ensures OnlyHyper(s, t, b, h)
  {
  }

  lemma ListShows(s: seq<Layer>, b: Base, h: Addr, x: Index, a: Addr, t: seq<Layer>)
    requires s != [] && ShowsIndex(s, b, h, x) && t == List(s, b, h, a)
    ensures OnlyHyper(s, t, b, h)
    ensures ShowsIndex(t, b, h, Listing(x, a))
  {
    var n := x.count;
    var s1 := SetData(s, StakeNumber(h, a), Some(n));
    var s2 := SetData(s1, StakeReverse(h, n), Some(a));
    NumberShows(s, b, h, x, a, Some(n), s1);
    SetOnly(s, b, h, StakeNumber(h, a), Some(n), s, s1);
    var x1 := x.(number := x.number[a := n]);
    ReverseShows(s1, b, h, x1, n, Some(a), s2);
    SetOnly(s, b, h, StakeReverse(h, n), Some(a), s1, s2);
    CountShows(s2, b, h, x1.(reverse := x.reverse[n := a]), n + 1, t);
    SetOnly(s, b, h, StakeCount(h), Some(n + 1), s2, t);
  }

  /** The last step of a change: the amount itself. */
  lemma AmountAfter(s: seq<Layer>, r: seq<Layer>, b: Base, h: Addr, y: Index, a: Addr, n: nat, t: seq<Layer>)
    requires OnlyHyper(s, r, b, h) && ShowsIndex(r, b, h, y) && t == SetAmount(r, StakeAmount(h, a), n)
    ensures OnlyHyper(s, t, b, h) && ShowsIndex(t, b, h, y.(amounts := StakeIndex.Store(y.amounts, a, n)))
  {
    AmountShows(r, b, h, y, a, n, t);
    SetOnly(s, b, h, StakeAmount(h, a), Stored(n), r, t);
  }

  lemma ReadsOf(s: seq<Layer>, b: Base, h: Addr, x: Index, a: Addr)
    requires ShowsIndex(s, b, h, x)
    ensures ReadData(s, b, StakeNumber(h, a)) == Lookup(x.number, a)
    ensures Amount(s, b, StakeAmount(h, a)) == Get(x.amounts, a)
  {
  }

  /** The index with a newcomer. */
  function Listing(x: Index, a: Addr): Index {
    x.(number := x.number[a := x.count], reverse := x.reverse[x.count := a], count := x.count + 1)
  }

  function Entered(x: Index, a: Addr): Index { if a in x.number then x else Listing(x, a) }

  lemma EnterShows(s: seq<Layer>, b: Base, h: Addr, x: Index, a: Addr, t: seq<Layer>)
    requires s != [] && ShowsIndex(s, b, h, x) && t == Enter(s, b, h, a)
    ensures OnlyHyper(s, t, b, h) && ShowsIndex(t, b, h, Entered(x, a))
  {
    ReadsOf(s, b, h, x, a);
    if a !in x.number { ListShows(s, b, h, x, a, t); }
  }

  lemma AddIs(x: Index, a: Addr, v: nat, y: Index)
    requires y == Entered(x, a)
    ensures StakeIndex.Add(x, a, v) == y.(amounts := StakeIndex.Store(y.amounts, a, Get(y.amounts, a) + v))
  {
  }

  /** The amount of someone who has entered. */
  lemma AmountThen(s: seq<Layer>, r: seq<Layer>, b: Base, h: Addr, x: Index, y: Index, a: Addr, v: nat, t: seq<Layer>)
    requires OnlyHyper(s, r, b, h) && ShowsIndex(r, b, h, y) && y == Entered(x, a)
    requires t == SetAmount(r, StakeAmount(h, a), Amount(r, b, StakeAmount(h, a)) + v)
    ensures OnlyHyper(s, t, b, h) && ShowsIndex(t, b, h, StakeIndex.Add(x, a, v))
  {
    ReadsOf(r, b, h, y, a);
    AddIs(x, a, v, y);
    AmountAfter(s, r, b, h, y, a, Get(y.amounts, a) + v, t);
  }

  lemma AddStakingShows(s: seq<Layer>, b: Base, h: Addr, x: Index, a: Addr, v: nat, t: seq<Layer>)
    requires s != [] && ShowsIndex(s, b, h, x) && t == AddStaking(s, b, h, a, v)
    ensures OnlyHyper(s, t, b, h) && ShowsIndex(t, b, h, StakeIndex.Add(x, a, v))
  {
    var r := Enter(s, b, h, a);
    EnterShows(s, b, h, x, a, r);
    AmountThen(s, r, b, h, x, Entered(x, a), a, v, t);
  }

  lemma SwapShows(s: seq<Layer>, b: Base, h: Addr, x: Index, n: nat, last: nat, swap: nat, t: seq<Layer>)
    requires s != [] && ShowsIndex(s, b, h, x) && t == Swap(s, b, h, n, last)
    requires swap == if last in x.reverse then x.reverse[last] else 0
    ensures OnlyHyper(s, t, b, h)
    ensures ShowsIndex(t, b, h, x.(number := x.number[swap := n], reverse := x.reverse[n := swap]))
  {
    assert ReadData(s, b, StakeReverse(h, last)) == Lookup(x.reverse, last);
    var s1 := SetData(s, StakeReverse(h, n), Some(swap));
    var x1 := x.(reverse := x.reverse[n := swap]);
    ReverseShows(s, b, h, x, n, Some(swap), s1);
    SetOnly(s, b, h, StakeReverse(h, n), Some(swap), s, s1);
    NumberShows(s1, b, h, x1, swap, Some(n), t);
    SetOnly(s, b, h, StakeNumber(h, swap), Some(n), s1, t);
  }

  lemma LeaveShows(s: seq<Layer>, r: seq<Layer>, b: Base, h: Addr, y: Index, a: Addr, last: nat, t: seq<Layer>)
    requires OnlyHyper(s, r, b, h) && ShowsIndex(r, b, h, y) && t == Leave(r, h, a, last)
    ensures OnlyHyper(s, t, b, h)
    ensures ShowsIndex(t, b, h, StakeIndex.Index(y.amounts, y.number - {a}, y.reverse - {last}, last))
  {
    var r1 := SetData(r, StakeNumber(h, a), None);
    var r2 := SetData(r1, StakeReverse(h, last), None);
    var y1 := y.(number := y.number - {a});
    NumberShows(r, b, h, y, a, None, r1);
    SetOnly(s, b, h, StakeNumber(h, a), None, r, r1);
    ReverseShows(r1, b, h, y1, last, None, r2);
    SetOnly(s, b, h, StakeReverse(h, last), None, r1, r2);
    CountShows(r2, b, h, y1.(reverse := y.reverse - {last}), last, t);
    SetOnly(s, b, h, StakeCount(h), Stored(last), r2, t);
  }

  lemma UnlistShows(s: seq<Layer>, b: Base, h: Addr, x: Index, a: Addr, n: nat, t: seq<Layer>)
    requires s != [] && ShowsIndex(s, b, h, x) && a in x.number && n == x.number[a] && t == Unlist(s, b, h, a, n)
    ensures OnlyHyper(s, t, b, h) && ShowsIndex(t, b, h, StakeIndex.Unlist(x, a))
  {
    var last := StakeIndex.Before(x.count);
    if n == last {
      LeaveShows(s, s, b, h, x, a, last, t);
    } else {
      var swap := if last in x.reverse then x.reverse[last] else 0;
      var r := Swap(s, b, h, n, last);
      SwapShows(s, b, h, x, n, last, swap, r);
      LeaveShows(s, r, b, h, x.(number := x.number[swap := n], reverse := x.reverse[n := swap]), a, last, t);
    }
  }

  lemma SubStakingShows(s: seq<Layer>, b: Base, h: Addr, x: Index, a: Addr, v: nat, t: Option<seq<Layer>>)
    requires s != [] && ShowsIndex(s, b, h, x) && t == SubStaking(s, b, h, a, v)
    ensures t.Some? <==> StakeIndex.Sub(x, a, v).Ok?
    ensures t.Some? ==> OnlyHyper(s, t.value, b, h) && ShowsIndex(t.value, b, h, StakeIndex.Sub(x, a, v).index)
  {
    ReadsOf(s, b, h, x, a);
    var total := Get(x.amounts, a);
    if v <= total {
      if total == v && a in x.number {
        var r := Unlist(s, b, h, a, x.number[a]);
        UnlistShows(s, b, h, x, a, x.number[a], r);
        AmountAfter(s, r, b, h, StakeIndex.Unlist(x, a), a, total - v, t.value);
      } else {
        AmountAfter(s, s, b, h, x, a, total - v, t.value);
      }
    }
  }

  // ---- a formulator with its sum ----

  lemma HyperShows(s: seq<Layer>, r: seq<Layer>, b: Base, c: Coins, h: Addr, x: Index, n: nat, t: seq<Layer>)
    requires Holds(s, b, c) && OnlyHyper(s, r, b, h) && ShowsIndex(r, b, h, x)
    requires h in c.stakes && t == PutAccount(r, h, Formulator(n))
    ensures SameBelow(s, t) && Holds(t, b, c.(stakes := c.stakes[h := x], staked := c.staked[h := n]))
  {
    assert ShowsHyper(s, b, c.stakes, c.staked, h) && ReadAccount(r, b, h).Found?;
    forall j ensures ReadAccount(t, b, j) == if j == h then Found(Formulator(n)) else ReadAccount(r, b, j) {
      PutAccountReads(r, b, h, Formulator(n), j);
    }
    assert forall k :: ReadData(t, b, k) == ReadData(r, b, k);
    HypersChange(s, r, t, b, c.stakes, c.staked, h, x, n, c.stakes[h := x], c.staked[h := n]);
  }

  lemma HypersChange(s: seq<Layer>, r: seq<Layer>, t: seq<Layer>, b: Base, stakes: map<Addr, Index>,
                     staked: map<Addr, nat>, h: Addr, x: Index, n: nat, more: map<Addr, Index>, sums: map<Addr, nat>)
    requires ShowsHypers(s, b, stakes, staked) && OnlyHyper(s, r, b, h) && ShowsIndex(r, b, h, x) && h in stakes
    requires forall k :: ReadData(t, b, k) == ReadData(r, b, k)
    requires forall j :: ReadAccount(t, b, j) == if j == h then Found(Formulator(n)) else ReadAccount(r, b, j)
    requires more == stakes[h := x] && sums == staked[h := n]
    ensures ShowsHypers(t, b, more, sums)
  {
    forall g ensures ShowsHyper(t, b, more, sums, g) {
      assert ShowsHyper(s, b, stakes, staked, g);
      if g == h {
        IndexFrame(r, t, b, h, x);
      } else if g in stakes {
        IndexFrame(s, t, b, g, stakes[g]);
      }
    }
  }

  // ---- what a transaction does ----

  lemma SubBalanceShows(s: seq<Layer>, b: Base, c: Coins, a: Addr, v: nat, t: Option<seq<Layer>>)
    requires Holds(s, b, c) && t == SubBalance(s, b, a, v)
    ensures t.Some? <==> Ledger.SubBalance(c, a, v).Some?
    ensures t.Some? ==> SameBelow(s, t.value) && Holds(t.value, b, Ledger.SubBalance(c, a, v).value)
  {
    assert Amount(s, b, Balance(a)) == Get(c.balances, a);
    if t.Some? { BalanceShows(s, b, c, a, Get(c.balances, a) - v, t.value); }
  }

  lemma AddBalanceShows(s: seq<Layer>, b: Base, c: Coins, a: Addr, v: nat, t: seq<Layer>)
    requires Holds(s, b, c) && t == AddBalance(s, b, a, v)
    ensures SameBelow(s, t) && Holds(t, b, Ledger.AddBalance(c, a, v))
  {
    assert Amount(s, b, Balance(a)) == Get(c.balances, a);
    BalanceShows(s, b, c, a, Get(c.balances, a) + v, t);
  }

  lemma AccountOf(s: seq<Layer>, b: Base, c: Coins, h: Addr)
    requires Holds(s, b, c)
    ensures IsFormulator(ReadAccount(s, b, h)) <==> h in c.stakes
    ensures h in c.stakes ==>
      h in c.staked && ReadAccount(s, b, h).acc.staked == c.staked[h] && ShowsIndex(s, b, h, c.stakes[h])
  {
    assert ShowsHyper(s, b, c.stakes, c.staked, h);
  }

  lemma AddStakeShows(s: seq<Layer>, b: Base, c: Coins, h: Addr, a: Addr, v: nat, n: nat, t: seq<Layer>)
    requires Holds(s, b, c) && h in c.stakes && h in c.staked && n == c.staked[h] && t == AddStake(s, b, h, a, v, n)
    ensures SameBelow(s, t) && Holds(t, b, Ledger.AddStake(c, h, a, v))
  {
    AccountOf(s, b, c, h);
    var r := AddStaking(s, b, h, a, v);
    AddStakingShows(s, b, h, c.stakes[h], a, v, r);
    HyperShows(s, r, b, c, h, StakeIndex.Add(c.stakes[h], a, v), n + v, t);
  }

  /** The stack `t`, if there is one, shows the coins `d`, and there is one if and only if there are such coins. */
  ghost predicate Matches(s: seq<Layer>, b: Base, t: Option<seq<Layer>>, d: Option<Coins>) {
    (t.Some? <==> d.Some?) && (t.Some? ==> SameBelow(s, t.value) && Holds(t.value, b, d.value))
  }

  lemma SubBalanceMatches(s: seq<Layer>, b: Base, c: Coins, a: Addr, v: nat, t: Option<seq<Layer>>, d: Option<Coins>)
    requires Holds(s, b, c) && t == SubBalance(s, b, a, v) && d == Ledger.SubBalance(c, a, v)
    ensures Matches(s, b, t, d)
  {
    SubBalanceShows(s, b, c, a, v, t);
  }

  lemma TransferMatches(s: seq<Layer>, b: Base, c: Coins, from: Addr, to: Addr, v: nat, t: Option<seq<Layer>>,
                        d: Option<Coins>)
    requires Holds(s, b, c) && t == Transfer(s, b, from, to, v) && d == Ledger.Transfer(c, from, to, v)
    ensures Matches(s, b, t, d)
  {
    var r, e := SubBalance(s, b, from, v), Ledger.SubBalance(c, from, v);
    SubBalanceMatches(s, b, c, from, v, r, e);
    if r.Some? { AddBalanceShows(r.value, b, e.value, to, v, t.value); }
  }

  /** Staking what has been taken from elsewhere. */
  lemma ThenStake(s: seq<Layer>, b: Base, h: Addr, a: Addr, v: nat, n: nat, r: Option<seq<Layer>>,
                  e: Option<Coins>, t: Option<seq<Layer>>, d: Option<Coins>)
    requires Matches(s, b, r, e) && (e.Some? ==> h in e.value.stakes && h in e.value.staked && n == e.value.staked[h])
    requires t == if r.None? then None else Some(AddStake(r.value, b, h, a, v, n))
    requires d == if e.None? then None else Some(Ledger.AddStake(e.value, h, a, v))
    ensures Matches(s, b, t, d)
  {
    if r.Some? { AddStakeShows(r.value, b, e.value, h, a, v, n, t.value); }
  }

  lemma StakeMatches(s: seq<Layer>, b: Base, c: Coins, from: Addr, h: Addr, v: nat, t: Option<seq<Layer>>,
                     d: Option<Coins>)
    requires Holds(s, b, c) && t == Stake(s, b, from, h, v) && d == Ledger.Stake(c, from, h, v)
    ensures Matches(s, b, t, d)
  {
    AccountOf(s, b, c, h);
    if h in c.stakes {
      var r, e := SubBalance(s, b, from, v), Ledger.SubBalance(c, from, v);
      SubBalanceMatches(s, b, c, from, v, r, e);
      ThenStake(s, b, h, from, v, c.staked[h], r, e, t, d);
    }
  }

  lemma TakeStakeMatches(s: seq<Layer>, b: Base, c: Coins, from: Addr, h: Addr, v: nat, t: Option<seq<Layer>>,
                         d: Option<Coins>)
    requires Holds(s, b, c) && t == TakeStake(s, b, from, h, v) && d == Ledger.TakeStake(c, from, h, v)
    ensures Matches(s, b, t, d)
  {
    AccountOf(s, b, c, h);
    if h in c.stakes {
      var x, r := c.stakes[h], SubStaking(s, b, h, from, v);
      SubStakingShows(s, b, h, x, from, v, r);
      if t.Some? {
        HyperShows(s, r.value, b, c, h, StakeIndex.Sub(x, from, v).index, c.staked[h] - v, t.value);
      }
    }
  }

  lemma AddTicketShows(s: seq<Layer>, b: Base, c: Coins, k: Ticket, v: nat, t: seq<Layer>)
    requires Holds(s, b, c) && t == AddTicket(s, b, k, v)
    ensures SameBelow(s, t) && Holds(t, b, c.(pending := c.pending[k := Get(c.pending, k) + v]))
  {
    assert ReadData(s, b, TicketKey(k)) == Lookup(c.pending, k);
    TicketShows(s, b, c, k, Some(Get(c.pending, k) + v), t);
  }

  lemma ThenTicket(s: seq<Layer>, b: Base, k: Ticket, v: nat, r: Option<seq<Layer>>, e: Option<Coins>,
                   t: Option<seq<Layer>>, d: Option<Coins>)
    requires Matches(s, b, r, e) && t == if r.None? then None else Some(AddTicket(r.value, b, k, v))
    requires d == WithTicket(e, k, v)
    ensures Matches(s, b, t, d)
  {
    if r.Some? { AddTicketShows(r.value, b, e.value, k, v, t.value); }
  }

  function WithTicket(e: Option<Coins>, k: Ticket, v: nat): Option<Coins> {
    if e.None? then None else Some(e.value.(pending := e.value.pending[k := Get(e.value.pending, k) + v]))
  }

  lemma UnstakeIs(c: Coins, from: Addr, h: Addr, v: nat, height: nat, e: Option<Coins>)
    requires e == Ledger.TakeStake(c, from, h, v)
    ensures Ledger.Unstake(c, from, h, v, height) == WithTicket(e, Ledger.Ticket(height, from, h), v)
  {
  }

  lemma UnstakeMatches(s: seq<Layer>, b: Base, c: Coins, from: Addr, h: Addr, v: nat, height: nat,
                       t: Option<seq<Layer>>, d: Option<Coins>)
    requires Holds(s, b, c) && t == Unstake(s, b, from, h, v, height) && d == Ledger.Unstake(c, from, h, v, height)
    ensures Matches(s, b, t, d)
  {
    var r, e := TakeStake(s, b, from, h, v), Ledger.TakeStake(c, from, h, v);
    TakeStakeMatches(s, b, c, from, h, v, r, e);
    UnstakeIs(c, from, h, v, height, e);
    ThenTicket(s, b, Ledger.Ticket(height, from, h), v, r, e, t, d);
  }

  function TicketTaken(c: Coins, k: Ticket, v: nat): Option<Coins> {
    if k !in c.pending || c.pending[k] < v then None
    else Some(c.(pending := if c.pending[k] == 0 then c.pending - {k} else c.pending[k := c.pending[k] - v]))
  }

  lemma TakeTicketMatches(s: seq<Layer>, b: Base, c: Coins, k: Ticket, v: nat, t: Option<seq<Layer>>,
                          d: Option<Coins>)
    requires Holds(s, b, c) && t == TakeTicket(s, b, k, v) && d == TicketTaken(c, k, v)
    ensures Matches(s, b, t, d)
  {
    assert ReadData(s, b, TicketKey(k)) == Lookup(c.pending, k);
    if t.Some? { TicketShows(s, b, c, k, if c.pending[k] == 0 then None else Some(c.pending[k] - v), t.value); }
  }

  lemma TakeBackIs(c: Coins, from: Addr, h: Addr, v: nat, height: nat, e: Option<Coins>)
    requires h in c.stakes && h in c.staked && e == TicketTaken(c, Ledger.Ticket(height, from, h), v)
    ensures Ledger.TakeBack(c, from, h, v, height) ==
      if e.None? then None else Some(Ledger.AddStake(e.value, h, from, v))
  {
  }

  lemma TakeBackMatches(s: seq<Layer>, b: Base, c: Coins, from: Addr, h: Addr, v: nat, height: nat,
                        t: Option<seq<Layer>>, d: Option<Coins>)
    requires Holds(s, b, c) && t == TakeBack(s, b, from, h, v, height) && d == Ledger.TakeBack(c, from, h, v, height)
    ensures Matches(s, b, t, d)
  {
    AccountOf(s, b, c, h);
    if h in c.stakes {
      var k := Ledger.Ticket(height, from, h);
      var r, e := TakeTicket(s, b, k, v), TicketTaken(c, k, v);
      TakeTicketMatches(s, b, c, k, v, r, e);
      TakeBackIs(c, from, h, v, height, e);
      ThenStake(s, b, h, from, v, c.staked[h], r, e, t, d);
    }
  }

  /** On a layer of its own a transaction does what it does to plain coins. */
  lemma ActMatches(s: seq<Layer>, b: Base, c: Coins, tx: Ledger.Tx, height: nat, wait: nat, t: Option<seq<Layer>>,
                   d: Option<Coins>)
    requires Holds(s, b, c) && t == Act(s, b, tx, height, wait) && d == Ledger.Effect(tx, height, wait)(c)
    ensures Matches(s, b, t, d)
  {
    match tx
    case TransferTx(from, to, v) => TransferMatches(s, b, c, from, to, v, t, d);
    case StakeTx(from, h, v) => StakeMatches(s, b, c, from, h, v, t, d);
    case UnstakeTx(from, h, v) => UnstakeMatches(s, b, c, from, h, v, height + wait, t, d);
    case TakeBackTx(from, h, v, at) => TakeBackMatches(s, b, c, from, h, v, at, t, d);
  }
}
