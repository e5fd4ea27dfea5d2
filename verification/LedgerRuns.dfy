/** Whole runs of blocks on the layered context: transactions on layers of their own, payments on the layer of the
    block, and a new layer over the saved state for each block. */
module LedgerRuns {
  import opened Options
  import opened Sums
  import opened Overlay
  import opened LedgerLayers
  import opened LedgerHoldings
  import opened LedgerBlocks
  import opened LedgerBooks
  import Ledger
  import LedgerMoves
  import StakeIndex

  // ---- payments ----

  /** A hook of the block: it sets keys on the layer of the block itself. */
  function PayTicket(s: seq<Layer>, b: Base, t: Ticket): seq<Layer>
    requires s != []
  {
    var n := ReadData(s, b, TicketKey(t));
    if n.None? then s else AddBalance(SetData(s, TicketKey(t), None), b, t.staker, n.value)
  }

  function PayAll(s: seq<Layer>, b: Base, ts: seq<Ticket>): (r: seq<Layer>)
    requires s != []
    ensures r != []
  {
    if ts == [] then s else PayTicket(PayAll(s, b, ts[..|ts| - 1]), b, ts[|ts| - 1])
  }

  lemma PayTicketShows(s: seq<Layer>, b: Base, c: Coins, t: Ticket, d: Coins)
    requires Holds(s, b, c) && d == if t in c.pending then Ledger.PayTicket(c, t) else c
    ensures Holds(PayTicket(s, b, t), b, d)
  {
    assert ReadData(s, b, TicketKey(t)) == Lookup(c.pending, t);
    if t in c.pending {
      var r := SetData(s, TicketKey(t), None);
      TicketShows(s, b, c, t, None, r);
      AddBalanceShows(r, b, c.(pending := c.pending - {t}), t.staker, c.pending[t], PayTicket(s, b, t));
    }
  }

  lemma {:induction false} PayAllShows(s: seq<Layer>, b: Base, c: Coins, ts: seq<Ticket>)
    requires Holds(s, b, c)
    ensures Holds(PayAll(s, b, ts), b, Ledger.PayAll(c, ts))
  {
    if ts != [] {
      var front, t := ts[..|ts| - 1], ts[|ts| - 1];
      PayAllShows(s, b, c, front);
      var d := Ledger.PayAll(c, front);
      PayTicketShows(PayAll(s, b, front), b, d, t, Ledger.PayAll(c, ts));
    }
  }

  // ---- the end of a block ----

  /** What is saved of a block is what its layer shows. */
  function Saved(s: seq<Layer>, b: Base): Base {
    Base((k: Key) => ReadData(s, b, k),
         (a: Addr) => match ReadAccount(s, b, a) case Found(x) => Some(x) case _ => None,
         (a: Addr) => ReadSeq(s, b, a))
  }

  lemma SavedShows(s: seq<Layer>, b: Base, c: Coins, t: seq<Layer>, d: Base)
    requires Holds(s, b, c) && d == Saved(s, b) && t == [NewLayer()]
    ensures Holds(t, d, c)
  {
    assert t[..0] == [];
    assert forall k :: ReadData(t, d, k) == ReadData(s, b, k);
    forall h ensures ShowsHyper(t, d, c.stakes, c.staked, h) {
      assert ShowsHyper(s, b, c.stakes, c.staked, h);
    }
  }

  // ---- one step ----

  datatype World = World(stack: seq<Layer>, base: Base)

  /** A transaction, a transmutation, the payment of tickets, or the end of a block. */
  datatype Event =
    | Do(tx: Ledger.Tx, fee: nat, height: nat, wait: nat)
    | Transmute(from: Addr, hypers: seq<Addr>, amounts: seq<nat>)
    | Flush(order: seq<Ticket>)
    | Seal

  /** A node, by what an event makes of its context and whether a transaction succeeds. */
  datatype Node = Node(next: (World, Event) -> World, ok: (World, Event) -> bool)

  ghost predicate Shown(w: World, c: Coins) { Holds(w.stack, w.base, c) }

  /** The coins after an event, where the layer of the block has deleted the keys `gone`. */
  function OnBlock(c: Coins, e: Event, gone: set<Key>): Coins {
    match e
    case Do(tx, fee, height, wait) => Drop(Ledger.ExecuteTx(c, tx, fee, height, wait).coins, gone)
    case Transmute(from, hypers, amounts) =>
      if !Ledger.Transmutable(c, from, hypers, amounts) then c
      else Drop(Ledger.Taken(c, from, hypers, amounts, |hypers|).coins, gone)
    case Flush(order) => Ledger.PayAll(c, order)
    case Seal => c
  }

  /** Whether a transaction or a transmutation succeeds. */
  predicate Succeeded(c: Coins, e: Event) {
    match e
    case Do(tx, fee, height, wait) => Ledger.ExecuteTx(c, tx, fee, height, wait).ok
    case Transmute(from, hypers, amounts) =>
      Ledger.Transmutable(c, from, hypers, amounts) && Ledger.Taken(c, from, hypers, amounts, |hypers|).ok
    case _ => false
  }

  function Gone(w: World): set<Key> { if w.stack == [] then {} else Top(w.stack).gone }

  /** What was deleted in the block stays deleted, and what is emptied is deleted. */
  ghost predicate Lasting(w: World, v: World) {
    && Gone(w) <= Gone(v) && v.base == w.base
    && forall k :: ReadData(w.stack, w.base, k).Some? && ReadData(v.stack, v.base, k).None? ==> k in Gone(v)
  }

  /** One event of the node, as the coins see it. */
  ghost predicate Advances(n: Node, w: World, c: Coins, e: Event) {
    && Shown(n.next(w, e), OnBlock(c, e, Gone(w)))
    && (e.Do? || e.Transmute? ==> Lasting(w, n.next(w, e)) && n.ok(w, e) == Succeeded(c, e))
  }

  ghost predicate Faithful(n: Node) {
    forall w, c, e {:trigger Advances(n, w, c, e)} :: Shown(w, c) ==> Advances(n, w, c, e)
  }

  // ---- the node of the source ----

  function Next(w: World, e: Event): World {
    if w.stack == [] then w
    else
      match e
      case Do(tx, fee, height, wait) => w.(stack := Execute(w.stack, w.base, tx, fee, height, wait).stack)
      case Transmute(from, hypers, amounts) =>
        w.(stack := LedgerLayers.Transmute(w.stack, w.base, from, hypers, amounts).stack)
      case Flush(order) => w.(stack := PayAll(w.stack, w.base, order))
      case Seal => World([NewLayer()], Saved(w.stack, w.base))
  }

  predicate Succeeds(w: World, e: Event) {
    if w.stack == [] then false
    else
      match e
      case Do(tx, fee, height, wait) => Execute(w.stack, w.base, tx, fee, height, wait).ok
      case Transmute(from, hypers, amounts) => LedgerLayers.Transmute(w.stack, w.base, from, hypers, amounts).ok
      case _ => false
  }

  function LayeredNode(): Node { Node((w, e) => Next(w, e), (w, e) => Succeeds(w, e)) }

  lemma MergeGone(s: seq<Layer>, b: Base, d: Layer, r: seq<Layer>, k: Key)
    requires s != [] && SameBelow(s, r) && Top(r) == Merge(Top(s), d)
    requires ReadData(s, b, k).Some? && ReadData(r, b, k).None?
    ensures k in Top(r).gone
  {
  }

  /** A key that a committed layer empties is deleted in the layer of the block, and no later one lifts that. */
  lemma CommitLasts(s: seq<Layer>, b: Base, r: seq<Layer>, t: seq<Layer>)
    requires s != [] && SameBelow(Snapshot(s), r) && t == Commit(r, |s| + 1)
    ensures Lasting(World(s, b), World(t, b))
  {
    CommitGives(s, r, b, t);
    forall k | ReadData(s, b, k).Some? && ReadData(t, b, k).None? ensures k in Top(t).gone {
      MergeGone(s, b, Top(r), t, k);
    }
  }

  /** So is what a transaction empties. */
  lemma Emptied(s: seq<Layer>, b: Base, c: Coins, tx: Ledger.Tx, fee: nat, height: nat, wait: nat, o: Outcome)
    requires Holds(s, b, c) && o == Execute(s, b, tx, fee, height, wait)
    ensures Lasting(World(s, b), World(o.stack, b))
  {
    var r := WithFee(Snapshot(s), b, tx, fee, height, wait);
    SnapshotShows(s, b, c);
    WithFeeShows(Snapshot(s), b, c, tx, fee, height, wait, r, Ledger.ExecuteTx(c, tx, fee, height, wait));
    CommitLasts(s, b, r.stack, o.stack);
  }

  lemma TransmuteAdvances(s: seq<Layer>, b: Base, c: Coins, from: Addr, hypers: seq<Addr>, amounts: seq<nat>,
                          o: Outcome, e: Event)
    requires Holds(s, b, c) && o == LedgerLayers.Transmute(s, b, from, hypers, amounts)
    requires e == Transmute(from, hypers, amounts)
    ensures Holds(o.stack, b, OnBlock(c, e, Top(s).gone)) && o.ok == Succeeded(c, e)
    ensures Lasting(World(s, b), World(o.stack, b))
  {
    TransmutableShown(s, b, c, from, hypers, amounts);
    if MayTransmute(s, b, from, hypers, amounts) {
      var r := LedgerLayers.Taken(Snapshot(s), b, from, hypers, amounts, |hypers|);
      TransmuteShows(s, b, c, from, hypers, amounts, r, Ledger.Taken(c, from, hypers, amounts, |hypers|), o.stack);
      CommitLasts(s, b, r.stack, o.stack);
    }
  }

  lemma NextAdvances(w: World, c: Coins, e: Event)
    requires Shown(w, c)
    ensures Advances(LayeredNode(), w, c, e)
  {
    match e
    case Do(tx, fee, height, wait) =>
      var o := Execute(w.stack, w.base, tx, fee, height, wait);
      ExecuteShows(w.stack, w.base, c, tx, fee, height, wait, o, Ledger.ExecuteTx(c, tx, fee, height, wait));
      Emptied(w.stack, w.base, c, tx, fee, height, wait, o);
    case Transmute(from, hypers, amounts) =>
      var o := LedgerLayers.Transmute(w.stack, w.base, from, hypers, amounts);
      TransmuteAdvances(w.stack, w.base, c, from, hypers, amounts, o, e);
    case Flush(order) => PayAllShows(w.stack, w.base, c, order);
    case Seal => SavedShows(w.stack, w.base, c, [NewLayer()], Saved(w.stack, w.base));
  }

  /** The node of the source does to the coins that its context shows what it does to plain coins, less what a committed
      transaction stores under keys deleted earlier in the block. */
  lemma LayeredNodeIsFaithful()
    ensures Faithful(LayeredNode())
  {
    forall w, c, e | Shown(w, c) ensures Advances(LayeredNode(), w, c, e) { NextAdvances(w, c, e); }
  }

  // ---- whose balance ----

  /** The payment of tickets pays every account exactly its own, and leaves no ticket that it was given. */
  lemma FlushPays(n: Node, w: World, c: Coins, order: seq<Ticket>, v: World, a: Addr, t: Ticket)
    requires Faithful(n) && Shown(w, c) && v == n.next(w, Flush(order))
    ensures Amount(v.stack, v.base, Balance(a)) ==
      Amount(w.stack, w.base, Balance(a)) + Ledger.DueTo(c.pending, (set u | u in order), a)
    ensures ReadData(v.stack, v.base, TicketKey(t)) ==
      if t in order then None else ReadData(w.stack, w.base, TicketKey(t))
  {
    assert Advances(n, w, c, Flush(order));
    var d := Ledger.PayAll(c, order);
    Ledger.PayAllGives(c, order, d, (set u | u in order), a);
    Ledger.PayAllLeaves(c, order, d);
    assert ReadData(w.stack, w.base, Balance(a)) == Stored(Get(c.balances, a));
    assert ReadData(v.stack, v.base, Balance(a)) == Stored(Get(d.balances, a));
    assert ReadData(w.stack, w.base, TicketKey(t)) == Lookup(c.pending, t);
    assert ReadData(v.stack, v.base, TicketKey(t)) == Lookup(d.pending, t);
  }

  /** A transaction that can pay its fee moves in the balances what it names, unless the key was deleted before. */
  lemma DoMoves(n: Node, w: World, c: Coins, e: Event, v: World, a: Addr)
    requires Faithful(n) && Shown(w, c) && e.Do? && v == n.next(w, e)
    requires Amount(w.stack, w.base, Balance(e.tx.from)) >= e.fee
    ensures Amount(v.stack, v.base, Balance(a)) ==
      if Balance(a) in Gone(w) then 0
      else Amount(w.stack, w.base, Balance(a)) + LedgerMoves.BalanceMove(e.tx, e.fee, n.ok(w, e), a)
  {
    assert Advances(n, w, c, e);
    var p := Ledger.ExecuteTx(c, e.tx, e.fee, e.height, e.wait);
    assert ReadData(w.stack, w.base, Balance(e.tx.from)) == Stored(Get(c.balances, e.tx.from));
    assert ReadData(w.stack, w.base, Balance(a)) == Stored(Get(c.balances, a));
    assert ReadData(v.stack, v.base, Balance(a)) == Stored(Get(Drop(p.coins, Gone(w)).balances, a));
    LedgerMoves.ExecuteMoves(c, e.tx, e.fee, e.height, e.wait, p, a, 0, Ledger.Ticket(0, 0, 0));
  }

  // ---- runs ----

  function After(n: Node, w: World, es: seq<Event>): World {
    if es == [] then w else n.next(After(n, w, es[..|es| - 1]), es[|es| - 1])
  }

  /** A transaction credits a key that was deleted earlier in its block, or a transmutation passes its checks and
      fails. */
  predicate LosesCoins(n: Node, w: World, e: Event) {
    match e
    case Do(tx, fee, height, wait) =>
      !(Credits(w.stack, w.base, tx, fee, height, wait, n.ok(w, e)) !! Gone(w))
    case Transmute(from, hypers, amounts) => MayTransmute(w.stack, w.base, from, hypers, amounts) && !n.ok(w, e)
    case _ => false
  }

  /** Nothing in the run does. */
  predicate LosesNone(n: Node, w: World, es: seq<Event>) {
    es == [] || (LosesNone(n, w, es[..|es| - 1]) && !LosesCoins(n, After(n, w, es[..|es| - 1]), es[|es| - 1]))
  }

  /** The deposit of the formulator that an event makes. */
  function Deposit(n: Node, w: World, e: Event): nat {
    if e.Transmute? && n.ok(w, e) then Total(e.amounts) else 0
  }

  function Deposits(n: Node, w: World, es: seq<Event>): nat {
    if es == [] then 0
    else Deposits(n, w, es[..|es| - 1]) + Deposit(n, After(n, w, es[..|es| - 1]), es[|es| - 1])
  }

  lemma StepSupply(n: Node, w: World, c: Coins, e: Event, d: Coins)
    requires Shown(w, c) && Advances(n, w, c, e) && d == OnBlock(c, e, Gone(w))
    ensures Holdings(d) + Deposit(n, w, e) <= Holdings(c)
    ensures Holdings(d) + Deposit(n, w, e) == Holdings(c) <==> !LosesCoins(n, w, e)
  {
    ShownBlank(w.stack, w.base, c);
    match e
    case Do(tx, fee, height, wait) =>
      var p := Ledger.ExecuteTx(c, tx, fee, height, wait);
      CreditsShown(w.stack, w.base, c, tx, fee, height, wait, p.ok);
      CommitSupplyIff(c, tx, fee, height, wait, Gone(w), p,
                      Credits(w.stack, w.base, tx, fee, height, wait, p.ok), d);
    case Transmute(from, hypers, amounts) =>
      TransmutableShown(w.stack, w.base, c, from, hypers, amounts);
      if Ledger.Transmutable(c, from, hypers, amounts) {
        var o := Ledger.Taken(c, from, hypers, amounts, |hypers|);
        TransmuteCommits(c, from, hypers, amounts, Gone(w), o, Deposit(n, w, e), d);
      }
    case Flush(order) => PayAllHoldings(c, order, d);
    case Seal =>
  }

  /** Over every run of blocks what is owned, together with the deposits of new formulators, never grows, and it stays
      the same if and only if no transaction credits a key that was deleted earlier in its block and no transmutation
      fails after its checks. */
  lemma {:induction false} RunSupplyIff(n: Node, w: World, c: Coins, es: seq<Event>) returns (d: Coins)
    requires Faithful(n) && Shown(w, c)
    ensures Shown(After(n, w, es), d) && Holdings(d) + Deposits(n, w, es) <= Holdings(c)
    ensures Holdings(d) + Deposits(n, w, es) == Holdings(c) <==> LosesNone(n, w, es)
  {
    if es == [] {
      d := c;
    } else {
      var k := |es| - 1;
      var m := RunSupplyIff(n, w, c, es[..k]);
      var v := After(n, w, es[..k]);
      assert Advances(n, v, m, es[k]);
      d := OnBlock(m, es[k], Gone(v));
      StepSupply(n, v, m, es[k], d);
    }
  }

  /** Where the books are in order, a transmutation loses coins if and only if it passes its checks and more is asked of
      some formulator in all than is staked there. */
  lemma TransmuteLosesIff(n: Node, w: World, c: Coins, e: Event)
    requires Faithful(n) && Shown(w, c) && BooksInOrder(c) && e.Transmute?
    ensures LosesCoins(n, w, e) <==>
      && Ledger.Transmutable(c, e.from, e.hypers, e.amounts)
      && !Ledger.StakesSuffice(c, e.from, e.hypers, e.amounts, |e.hypers|)
  {
    assert Advances(n, w, c, e);
    TransmutableShown(w.stack, w.base, c, e.from, e.hypers, e.amounts);
    if Ledger.Transmutable(c, e.from, e.hypers, e.amounts) {
      OrderedKept(c);
      Ledger.TakenIff(c, e.from, e.hypers, e.amounts, |e.hypers|);
    }
  }

  // ---- runs that lose nothing ----

  /** A transaction adds a key to an index that was deleted earlier in its block. */
  predicate LosesStakes(n: Node, w: World, e: Event) {
    e.Do? && !(StakeKeys(w.stack, w.base, e.tx, n.ok(w, e)) !! Gone(w))
  }

  /** No amount is zero, and no key is lost. */
  predicate CleanStep(n: Node, w: World, e: Event) {
    (e.Do? ==> e.tx.v > 0) && !LosesCoins(n, w, e) && !LosesStakes(n, w, e)
  }

  predicate CleanRun(n: Node, w: World, es: seq<Event>) {
    es == [] || (CleanRun(n, w, es[..|es| - 1]) && CleanStep(n, After(n, w, es[..|es| - 1]), es[|es| - 1]))
  }

  /** The same events on plain coins. */
  function CoinsAfter(c: Coins, es: seq<Event>): Coins {
    if es == [] then c else OnBlock(CoinsAfter(c, es[..|es| - 1]), es[|es| - 1], {})
  }

  lemma NothingDeleted(c: Coins, gone: set<Key>, d: Coins)
    requires gone == {} && d == Drop(c, gone)
    ensures d == c
  {
    assert d.stakes == c.stakes by {
      forall h | h in c.stakes ensures d.stakes[h] == c.stakes[h] { SparedStays(c.stakes[h], h, gone); }
    }
    assert d.balances == c.balances && d.pending == c.pending;
  }

  lemma StepClean(n: Node, w: World, c: Coins, e: Event, d: Coins)
    requires Shown(w, c) && BooksInOrder(c) && Advances(n, w, c, e) && CleanStep(n, w, e) && d == OnBlock(c, e, {})
    ensures Shown(n.next(w, e), d) && BooksInOrder(d) && Holdings(d) + Deposit(n, w, e) == Holdings(c)
  {
    var v := n.next(w, e);
    match e
    case Do(tx, fee, height, wait) =>
      var p := Ledger.ExecuteTx(c, tx, fee, height, wait);
      NothingDeleted(p.coins, {}, d);
      ExecuteHoldings(c, tx, fee, height, wait, p);
      CleanDo(n, w, c, e, p);
      DropBlank(v.stack, v.base, p.coins, Gone(w), Drop(p.coins, Gone(w)));
    case Transmute(from, hypers, amounts) => CleanTransmute(n, w, c, e, d);
    case Flush(order) => PayAllHoldings(c, order, d);
    case Seal =>
  }

  lemma CleanTransmute(n: Node, w: World, c: Coins, e: Event, d: Coins)
    requires Shown(w, c) && BooksInOrder(c) && Advances(n, w, c, e) && CleanStep(n, w, e) && d == OnBlock(c, e, {})
    requires e.Transmute?
    ensures Shown(n.next(w, e), d) && BooksInOrder(d) && Holdings(d) + Deposit(n, w, e) == Holdings(c)
  {
    TransmutableShown(w.stack, w.base, c, e.from, e.hypers, e.amounts);
    if Ledger.Transmutable(c, e.from, e.hypers, e.amounts) {
      var o, v := Ledger.Taken(c, e.from, e.hypers, e.amounts, |e.hypers|), n.next(w, e);
      NothingDeleted(o.coins, {}, d);
      TransmuteHoldings(c, e.from, e.hypers, e.amounts, o, Deposit(n, w, e));
      ShownBlank(w.stack, w.base, c);
      TransmuteClean(c, e.from, e.hypers, e.amounts, Gone(w), o);
      DropBlank(v.stack, v.base, o.coins, Gone(w), Drop(o.coins, Gone(w)));
    }
  }

  lemma CleanDo(n: Node, w: World, c: Coins, e: Event, p: Ledger.Outcome)
    requires Shown(w, c) && BooksInOrder(c) && e.Do? && CleanStep(n, w, e) && n.ok(w, e) == p.ok
    requires p == Ledger.ExecuteTx(c, e.tx, e.fee, e.height, e.wait)
    ensures BooksInOrder(p.coins) && AllBlank(p.coins, Gone(w))
  {
    var credits := Credits(w.stack, w.base, e.tx, e.fee, e.height, e.wait, p.ok);
    var ks := StakeKeys(w.stack, w.base, e.tx, p.ok);
    ShownBlank(w.stack, w.base, c);
    EffectOnStakes(c, e.tx, e.fee, e.height, e.wait, p);
    CreditsShown(w.stack, w.base, c, e.tx, e.fee, e.height, e.wait, p.ok);
    StakeKeysShown(w.stack, w.base, c, e.tx, p.ok, ks);
    CommitClean(c, e.tx, e.fee, e.height, e.wait, Gone(w), p, credits, ks);
  }

  /** A run of blocks in which no transaction stores anything under a key that was deleted earlier in its block, and no
      transmutation fails after its checks, shows what the same run makes of plain coins: nothing is made or lost,
      every formulator lists exactly those with a stake, and the sum that it keeps is that of their stakes. */
  lemma {:induction false} RunClean(n: Node, w: World, c: Coins, es: seq<Event>, d: Coins)
    requires Faithful(n) && Shown(w, c) && BooksInOrder(c) && CleanRun(n, w, es) && d == CoinsAfter(c, es)
    ensures Shown(After(n, w, es), d) && BooksInOrder(d) && Holdings(d) + Deposits(n, w, es) == Holdings(c)
    ensures Ledger.Supply(c) == Holdings(c) && Ledger.Supply(d) == Holdings(d)
  {
    if es != [] {
      var k := |es| - 1;
      var m, v := CoinsAfter(c, es[..k]), After(n, w, es[..k]);
      RunClean(n, w, c, es[..k], m);
      assert Advances(n, v, m, es[k]);
      StepClean(n, v, m, es[k], d);
    }
    OrderedKept(c);
    OrderedKept(d);
    KeptHoldings(c);
    KeptHoldings(d);
  }

  // ---- the node of the source, over whole runs ----

  /** The same of the node of the source itself. */
  lemma SourceSupplyIff(w: World, c: Coins, es: seq<Event>, n: Node) returns (d: Coins)
    requires n == LayeredNode() && Shown(w, c)
    ensures Shown(After(n, w, es), d) && Holdings(d) + Deposits(n, w, es) <= Holdings(c)
    ensures Holdings(d) + Deposits(n, w, es) == Holdings(c) <==> LosesNone(n, w, es)
  {
    LayeredNodeIsFaithful();
    d := RunSupplyIff(n, w, c, es);
  }

  lemma SourceClean(w: World, c: Coins, es: seq<Event>, n: Node, d: Coins)
    requires n == LayeredNode() && Shown(w, c) && BooksInOrder(c) && CleanRun(n, w, es) && d == CoinsAfter(c, es)
    ensures Shown(After(n, w, es), d) && BooksInOrder(d) && Holdings(d) + Deposits(n, w, es) == Holdings(c)
    ensures Ledger.Supply(c) == Holdings(c) && Ledger.Supply(d) == Holdings(d)
  {
    LayeredNodeIsFaithful();
    RunClean(n, w, c, es, d);
  }

  // ---- where coins are lost ----

  lemma SealShows(n: Node, w: World, c: Coins)
    requires Faithful(n) && Shown(w, c)
    ensures Shown(n.next(w, Seal), c)
  {
    assert Advances(n, w, c, Seal);
  }

  /** A block of two transfers, for all amounts: `x` sends all it has to `y`, and is paid something by `y`. Both
      succeed, and when the block is saved what was paid back is gone. */
  lemma PaidBackIsLost(n: Node, w: World, c: Coins, x: Addr, y: Addr, v: nat, u: nat, fee: nat, height: nat, wait: nat,
                       all: Event, w1: World, back: Event, w2: World) returns (d: Coins)
    requires Faithful(n) && Shown(w, c) && Gone(w) == {} && x != y && v > 0 && u > 0
    requires Get(c.balances, x) == fee + v && Get(c.balances, y) + v >= fee + u
    requires all == Do(Ledger.TransferTx(x, y, v), fee, height, wait) && w1 == n.next(w, all)
    requires back == Do(Ledger.TransferTx(y, x, u), fee, height, wait) && w2 == n.next(w1, back)
    ensures n.ok(w, all) && n.ok(w1, back)
    ensures Shown(n.next(w2, Seal), d) && Get(d.balances, x) == 0 && Holdings(d) < Holdings(c)
  {
    var c1 := SendsAll(n, w, c, x, y, v, fee, all, w1);
    d := PaidBack(n, w1, c1, x, fee, back, w2);
    SealShows(n, w2, d);
  }

  lemma SentAll(c: Coins, x: Addr, y: Addr, v: nat, fee: nat, height: nat, wait: nat, p: Ledger.Outcome)
    requires x != y && Get(c.balances, x) == fee + v
    requires p == Ledger.ExecuteTx(c, Ledger.TransferTx(x, y, v), fee, height, wait)
    ensures p.ok && Get(p.coins.balances, x) == 0 && Get(p.coins.balances, y) == Get(c.balances, y) + v
  {
  }

  /** Sending all, at the start of a block, deletes the balance there. */
  lemma SendsAll(n: Node, w: World, c: Coins, x: Addr, y: Addr, v: nat, fee: nat, all: Event, w1: World)
      returns (c1: Coins)
    requires Faithful(n) && Shown(w, c) && Gone(w) == {} && x != y && v > 0 && Get(c.balances, x) == fee + v
    requires all.Do? && all.tx == Ledger.TransferTx(x, y, v) && all.fee == fee && w1 == n.next(w, all)
    ensures n.ok(w, all) && Shown(w1, c1) && Balance(x) in Gone(w1) && Holdings(c1) == Holdings(c)
    ensures Get(c1.balances, y) == Get(c.balances, y) + v
  {
    var p := Ledger.ExecuteTx(c, all.tx, fee, all.height, all.wait);
    c1 := p.coins;
    assert Advances(n, w, c, all);
    SentAll(c, x, y, v, fee, all.height, all.wait, p);
    NothingDeleted(c1, Gone(w), Drop(c1, Gone(w)));
    ExecuteHoldings(c, all.tx, fee, all.height, all.wait, p);
    assert ReadData(w.stack, w.base, Balance(x)) == Stored(fee + v);
    assert ReadData(w1.stack, w1.base, Balance(x)) == Stored(0);
  }

  lemma Transfers(c: Coins, tx: Ledger.Tx, fee: nat, height: nat, wait: nat)
    requires tx.TransferTx? && Get(c.balances, tx.from) >= fee + tx.v
    ensures Ledger.ExecuteTx(c, tx, fee, height, wait).ok
  {
  }

  lemma PaidBack(n: Node, w: World, c: Coins, x: Addr, fee: nat, back: Event, v: World) returns (d: Coins)
    requires Faithful(n) && Shown(w, c) && Balance(x) in Gone(w) && v == n.next(w, back) && back.Do? && back.fee == fee
    requires back.tx.TransferTx? && back.tx.to == x && back.tx.v > 0 && Get(c.balances, back.tx.from) >= fee + back.tx.v
    ensures n.ok(w, back) && Shown(v, d) && Get(d.balances, x) == 0 && Holdings(d) < Holdings(c)
  {
    assert Advances(n, w, c, back);
    Transfers(c, back.tx, fee, back.height, back.wait);
    d := OnBlock(c, back, Gone(w));
    StepSupply(n, w, c, back, d);
    assert Balance(x) in Credits(w.stack, w.base, back.tx, fee, back.height, back.wait, true) by {
      CreditsShown(w.stack, w.base, c, back.tx, fee, back.height, back.wait, true);
    }
  }

  // ---- where stakes are lost ----

  lemma OneNumber(x: Index, a: Addr)
    requires StakeIndex.Exact(x) && x.amounts.Keys == {a}
    ensures x.count == 1 && 0 in x.reverse && x.number == map[a := 0]
  {
    assert a in x.number.Keys && x.number.Keys == {a};
    assert forall i :: 0 <= i < x.count ==> x.reverse[i] in x.number.Keys;
    var last := x.count - 1;
    assert x.number[x.reverse[0]] == 0 && x.number[x.reverse[last]] == last;
  }

  lemma LastStaker(x: Index, a: Addr, y: Index)
    requires StakeIndex.Exact(x) && x.amounts.Keys == {a}
    requires StakeIndex.Sub(x, a, StakeIndex.Amount(x, a)) == StakeIndex.Ok(y)
    ensures 0 in x.reverse && 0 !in y.reverse && y.count == 0 && y.number == map[]
  {
    OneNumber(x, a);
  }

  /** Taking back a stake: the fee is all that the balance pays. */
  lemma Withdraws(c: Coins, a: Addr, h: Addr, v: nat, tx: Ledger.Tx, fee: nat, height: nat, wait: nat,
                  p: Ledger.Outcome)
    requires h in c.stakes && h in c.staked && v <= c.staked[h] && StakeIndex.Sub(c.stakes[h], a, v).Ok?
    requires Get(c.balances, a) >= fee
    requires tx == Ledger.UnstakeTx(a, h, v) && p == Ledger.ExecuteTx(c, tx, fee, height, wait)
    ensures p.ok && forall y :: Get(p.coins.balances, y) >= Get(c.balances, y) - fee
  {
    var e := PaidCoins(c, a, fee).value;
    assert Ledger.TakeStake(e, a, h, v).Some? && p.coins.balances == e.balances;
  }

  lemma Leaves(c: Coins, a: Addr, h: Addr, v: nat, tx: Ledger.Tx, fee: nat, height: nat, wait: nat, p: Ledger.Outcome)
    requires BooksInOrder(c) && h in c.stakes && c.stakes[h].amounts.Keys == {a} && v == c.stakes[h].amounts[a]
    requires Get(c.balances, a) >= fee
    requires tx == Ledger.UnstakeTx(a, h, v) && p == Ledger.ExecuteTx(c, tx, fee, height, wait)
    ensures p.ok && BooksInOrder(p.coins) && h in p.coins.stakes && 0 in c.stakes[h].reverse
    ensures p.coins.stakes[h].number == map[] && p.coins.stakes[h].count == 0 && 0 !in p.coins.stakes[h].reverse
    ensures forall y :: Get(p.coins.balances, y) >= Get(c.balances, y) - fee
  {
    var y := StakeIndex.Sub(c.stakes[h], a, v).index;
    SubOrdered(c.stakes[h], c.staked[h], a, v, y);
    LastStaker(c.stakes[h], a, y);
    Withdraws(c, a, h, v, tx, fee, height, wait, p);
    EffectOnStakes(c, tx, fee, height, wait, p);
    PlainOrdered(c, tx, p.coins, true);
  }

  /** At the start of a block a transaction that empties a key of the index deletes it there. */
  lemma FirstInBlock(n: Node, w: World, c: Coins, h: Addr, e: Event, p: Ledger.Outcome, v: World)
    requires Faithful(n) && Shown(w, c) && Gone(w) == {} && e.Do? && v == n.next(w, e) && p.ok
    requires p == Ledger.ExecuteTx(c, e.tx, e.fee, e.height, e.wait) && h in c.stakes && h in p.coins.stakes
    ensures n.ok(w, e) && Shown(v, p.coins)
    ensures 0 in c.stakes[h].reverse && 0 !in p.coins.stakes[h].reverse ==> StakeReverse(h, 0) in Gone(v)
    ensures forall a :: Get(c.stakes[h].amounts, a) > 0 && Get(p.coins.stakes[h].amounts, a) == 0 ==>
      StakeAmount(h, a) in Gone(v)
  {
    assert Advances(n, w, c, e);
    NothingDeleted(p.coins, Gone(w), Drop(p.coins, Gone(w)));
    IndexOf(w, c, h);
    IndexOf(v, p.coins, h);
  }

  lemma IndexOf(w: World, c: Coins, h: Addr)
    requires Shown(w, c) && h in c.stakes
    ensures ReadData(w.stack, w.base, StakeReverse(h, 0)) == Lookup(c.stakes[h].reverse, 0)
    ensures forall a :: ReadData(w.stack, w.base, StakeAmount(h, a)) == Stored(Get(c.stakes[h].amounts, a))
  {
    AccountOf(w.stack, w.base, c, h);
  }

  lemma TakesAll(c: Coins, a: Addr, h: Addr, v: nat, tx: Ledger.Tx, fee: nat, height: nat, wait: nat, p: Ledger.Outcome)
    requires BooksInOrder(c) && h in c.stakes && v == Get(c.stakes[h].amounts, a) && Get(c.balances, a) >= fee
    requires tx == Ledger.UnstakeTx(a, h, v) && p == Ledger.ExecuteTx(c, tx, fee, height, wait)
    ensures p.ok && h in p.coins.stakes && h in p.coins.staked && Get(p.coins.stakes[h].amounts, a) == 0
    ensures v <= c.staked[h] && p.coins.staked[h] == c.staked[h] - v
    ensures Get(p.coins.balances, a) >= Get(c.balances, a) - fee
  {
    SubOrdered(c.stakes[h], c.staked[h], a, v, StakeIndex.Sub(c.stakes[h], a, v).index);
    Withdraws(c, a, h, v, tx, fee, height, wait, p);
    EffectOnStakes(c, tx, fee, height, wait, p);
  }

  lemma LastLeaves(n: Node, w: World, c: Coins, a: Addr, h: Addr, v: nat, e: Event, w1: World) returns (d: Coins)
    requires Faithful(n) && Shown(w, c) && Gone(w) == {} && BooksInOrder(c)
    requires h in c.stakes && c.stakes[h].amounts.Keys == {a} && v == c.stakes[h].amounts[a]
    requires e.Do? && e.tx == Ledger.UnstakeTx(a, h, v) && w1 == n.next(w, e) && Get(c.balances, a) >= e.fee
    ensures n.ok(w, e) && Shown(w1, d) && BooksInOrder(d) && h in d.stakes
    ensures d.stakes[h].number == map[] && d.stakes[h].count == 0
    ensures StakeReverse(h, 0) in Gone(w1) && StakeAmount(h, a) in Gone(w1)
    ensures forall y :: Get(d.balances, y) >= Get(c.balances, y) - e.fee
  {
    var p := Ledger.ExecuteTx(c, e.tx, e.fee, e.height, e.wait);
    Leaves(c, a, h, v, e.tx, e.fee, e.height, e.wait, p);
    TakesAll(c, a, h, v, e.tx, e.fee, e.height, e.wait, p);
    FirstInBlock(n, w, c, h, e, p, w1);
    d := p.coins;
  }

  lemma Joins(c: Coins, tx: Ledger.Tx, fee: nat, height: nat, wait: nat)
    requires tx.StakeTx? && tx.hyper in c.stakes && tx.hyper in c.staked && Get(c.balances, tx.from) >= fee + tx.v
    ensures Ledger.ExecuteTx(c, tx, fee, height, wait).ok
  {
  }

  lemma JoinBreaks(c: Coins, h: Addr, tx: Ledger.Tx, fee: nat, height: nat, wait: nat, gone: set<Key>,
                   p: Ledger.Outcome)
    requires BooksInOrder(c) && AllBlank(c, gone) && h in c.stakes && tx.StakeTx? && tx.hyper == h && tx.v > 0
    requires c.stakes[h].number == map[] && c.stakes[h].count == 0 && StakeReverse(h, 0) in gone
    requires p == Ledger.ExecuteTx(c, tx, fee, height, wait) && p.ok
    ensures !BooksInOrder(Drop(p.coins, gone))
  {
    var ks := AddedKeys(h, tx.from, false, 0);
    assert StakeReverse(h, 0) in ks;
    CommitBooksIff(c, tx, fee, height, wait, gone, p, ks, Drop(p.coins, gone));
  }

  lemma JoinsAfter(n: Node, w: World, c: Coins, h: Addr, e: Event, v: World) returns (d: Coins)
    requires Faithful(n) && Shown(w, c) && BooksInOrder(c) && h in c.stakes && e.Do? && v == n.next(w, e)
    requires e.tx.StakeTx? && e.tx.hyper == h && e.tx.v > 0 && Get(c.balances, e.tx.from) >= e.fee + e.tx.v
    requires c.stakes[h].number == map[] && c.stakes[h].count == 0 && StakeReverse(h, 0) in Gone(w)
    ensures n.ok(w, e) && Shown(v, d) && !BooksInOrder(d) && h in d.stakes && 0 !in d.stakes[h].reverse
    ensures StakeAmount(h, e.tx.from) in Gone(w) ==> Get(d.stakes[h].amounts, e.tx.from) == 0
  {
    assert Advances(n, w, c, e);
    var p := Ledger.ExecuteTx(c, e.tx, e.fee, e.height, e.wait);
    d := Drop(p.coins, Gone(w));
    Joins(c, e.tx, e.fee, e.height, e.wait);
    ShownBlank(w.stack, w.base, c);
    SameHypers(c, e.tx, e.fee, e.height, e.wait, p);
    JoinBreaks(c, h, e.tx, e.fee, e.height, e.wait, Gone(w), p);
  }

  /** A block in which the only staker of a formulator takes back all and somebody, perhaps the same, stakes after: both
      succeed, and the books are out of order: nobody has the first number, and if it is the same one, the stake is
      gone. */
  lemma StakeIsNotListed(n: Node, w: World, c: Coins, a: Addr, h: Addr, v: nat, y: Addr, u: nat, fee: nat, height: nat,
                         wait: nat, leave: Event, w1: World, stake: Event, w2: World) returns (d: Coins)
    requires Faithful(n) && Shown(w, c) && Gone(w) == {} && BooksInOrder(c) && u > 0
    requires h in c.stakes && c.stakes[h].amounts.Keys == {a} && v == c.stakes[h].amounts[a]
    requires Get(c.balances, a) >= fee && Get(c.balances, y) >= fee + fee + u
    requires leave == Do(Ledger.UnstakeTx(a, h, v), fee, height, wait) && w1 == n.next(w, leave)
    requires stake == Do(Ledger.StakeTx(y, h, u), fee, height, wait) && w2 == n.next(w1, stake)
    ensures n.ok(w, leave) && n.ok(w1, stake) && Shown(w2, d) && !BooksInOrder(d)
    ensures h in d.stakes && 0 !in d.stakes[h].reverse && (y == a ==> Get(d.stakes[h].amounts, y) == 0)
  {
    var c1 := LastLeaves(n, w, c, a, h, v, leave, w1);
    d := JoinsAfter(n, w1, c1, h, stake, w2);
  }

  // ---- where a stake is lost ----

  lemma AllTaken(n: Node, w: World, c: Coins, a: Addr, h: Addr, v: nat, e: Event, w1: World) returns (d: Coins)
    requires Faithful(n) && Shown(w, c) && Gone(w) == {} && BooksInOrder(c)
    requires h in c.stakes && v == Get(c.stakes[h].amounts, a) && v > 0
    requires e.Do? && e.tx == Ledger.UnstakeTx(a, h, v) && w1 == n.next(w, e) && Get(c.balances, a) >= e.fee
    ensures n.ok(w, e) && Shown(w1, d) && Holdings(d) == Holdings(c) && StakeAmount(h, a) in Gone(w1)
    ensures h in d.stakes && h in d.staked && h in c.staked && d.staked[h] == c.staked[h] - v
    ensures Get(d.balances, a) >= Get(c.balances, a) - e.fee
  {
    var p := Ledger.ExecuteTx(c, e.tx, e.fee, e.height, e.wait);
    TakesAll(c, a, h, v, e.tx, e.fee, e.height, e.wait, p);
    ExecuteHoldings(c, e.tx, e.fee, e.height, e.wait, p);
    FirstInBlock(n, w, c, h, e, p, w1);
    d := p.coins;
  }

  lemma StakeDropped(c: Coins, tx: Ledger.Tx, fee: nat, height: nat, wait: nat, gone: set<Key>, p: Ledger.Outcome,
                     d: Coins)
    requires tx.StakeTx? && c.staked.Keys == c.stakes.Keys && StakeAmount(tx.hyper, tx.from) in gone
    requires p == Ledger.ExecuteTx(c, tx, fee, height, wait) && p.ok && d == Drop(p.coins, gone)
    ensures tx.hyper in d.stakes && Get(d.stakes[tx.hyper].amounts, tx.from) == 0
    ensures tx.hyper in c.staked && tx.hyper in d.staked && d.staked[tx.hyper] == c.staked[tx.hyper] + tx.v
  {
    EffectOnStakes(c, tx, fee, height, wait, p);
  }

  lemma Restakes(n: Node, w: World, c: Coins, a: Addr, h: Addr, u: nat, e: Event, v: World) returns (d: Coins)
    requires Faithful(n) && Shown(w, c) && h in c.stakes && h in c.staked && StakeAmount(h, a) in Gone(w)
    requires e.Do? && e.tx == Ledger.StakeTx(a, h, u) && u > 0 && v == n.next(w, e)
    requires Get(c.balances, a) >= e.fee + u
    ensures n.ok(w, e) && Shown(v, d) && Holdings(d) < Holdings(c)
    ensures h in d.stakes && Get(d.stakes[h].amounts, a) == 0 && h in d.staked && d.staked[h] == c.staked[h] + u
  {
    assert Advances(n, w, c, e);
    Joins(c, e.tx, e.fee, e.height, e.wait);
    d := OnBlock(c, e, Gone(w));
    StakeDropped(c, e.tx, e.fee, e.height, e.wait, Gone(w), Ledger.ExecuteTx(c, e.tx, e.fee, e.height, e.wait), d);
    StepSupply(n, w, c, e, d);
    assert StakeAmount(h, a) in Credits(w.stack, w.base, e.tx, e.fee, e.height, e.wait, true);
  }

  /** A block in which a staker takes back all its stake and stakes again at the same formulator, for all amounts and
      whoever else has staked there: both succeed, the formulator counts the new stake in its sum, and in the saved
      state the stake itself is gone. */
  lemma RestakedIsLost(n: Node, w: World, c: Coins, a: Addr, h: Addr, v: nat, u: nat, fee: nat, height: nat, wait: nat,
                       leave: Event, w1: World, stake: Event, w2: World) returns (d: Coins)
    requires Faithful(n) && Shown(w, c) && Gone(w) == {} && BooksInOrder(c) && v > 0 && u > 0
    requires h in c.stakes && v == Get(c.stakes[h].amounts, a) && Get(c.balances, a) >= fee + fee + u
    requires leave == Do(Ledger.UnstakeTx(a, h, v), fee, height, wait) && w1 == n.next(w, leave)
    requires stake == Do(Ledger.StakeTx(a, h, u), fee, height, wait) && w2 == n.next(w1, stake)
    ensures n.ok(w, leave) && n.ok(w1, stake)
    ensures Shown(n.next(w2, Seal), d) && Holdings(d) < Holdings(c)
    ensures h in d.stakes && Get(d.stakes[h].amounts, a) == 0
    ensures h in c.staked && h in d.staked && d.staked[h] == c.staked[h] - v + u
  {
    var c1 := AllTaken(n, w, c, a, h, v, leave, w1);
    d := Restakes(n, w1, c1, a, h, u, stake, w2);
    SealShows(n, w2, d);
  }
}
