/** The transaction pool. Its queues are taken as what they hold: `turns` and `numbers` in order, the bucket of
    an address sorted by sequence, and the queue of the other transactions with its table of keys. Transactions
    that leave out of turn are counted, and as many turns are skipped later. */
module TxPool {
  import opened Options

  /** `Account` transactions have a sender and a sequence; `Utxo` ones do not. */
  datatype Tx = Account(hash: nat, from: nat, seqno: nat) | Utxo(hash: nat)

  datatype Pool = Pool(
    turns: seq<bool>,
    numbers: seq<nat>,
    utxos: seq<Tx>,
    keys: map<nat, Tx>,
    hashes: set<nat>,
    turnOut: multiset<bool>,
    numberOut: multiset<nat>,
    buckets: map<nat, seq<Tx>>)

  function Empty(): Pool { Pool([], [], [], map[], {}, multiset{}, multiset{}, map[]) }

  datatype Code = Pushed | ExistTransaction | ExistTransactionSeq

  // ---- adding ----

  predicate HasSeq(b: seq<Tx>, n: nat) {
    exists i :: 0 <= i < |b| && b[i].Account? && b[i].seqno == n
  }

  function Place(b: seq<Tx>, n: nat): (i: nat)
    ensures i <= |b|
  {
    if b == [] || (b[0].Account? && n < b[0].seqno) then 0 else 1 + Place(b[1..], n)
  }

  function BucketOf(p: Pool, a: nat): seq<Tx> { if a in p.buckets then p.buckets[a] else [] }

  function WithTx(b: seq<Tx>, t: Tx): seq<Tx>
    requires t.Account?
  {
    var i := Place(b, t.seqno);
    b[..i] + [t] + b[i..]
  }

  function PushCode(p: Pool, t: Tx): Code {
    if t.hash in p.hashes then ExistTransaction
    else if t.Account? && HasSeq(BucketOf(p, t.from), t.seqno) then ExistTransactionSeq
    else Pushed
  }

  function Push(p: Pool, t: Tx): Pool {
    if !PushCode(p, t).Pushed? then p
    else if t.Utxo? then
      p.(utxos := p.utxos + [t], keys := p.keys[t.hash := t], turns := p.turns + [true], hashes := p.hashes + {t.hash})
    else
      p.(buckets := p.buckets[t.from := WithTx(BucketOf(p, t.from), t)],
         numbers := p.numbers + [t.from], turns := p.turns + [false], hashes := p.hashes + {t.hash})
  }

  // ---- leaving out of turn ----

  /** One turn of a kind goes: the first in the queue if it is of that kind, else one later. */
  function SkipTurn(p: Pool, kind: bool): Pool {
    if p.turns != [] && p.turns[0] == kind then p.(turns := p.turns[1..]) else p.(turnOut := p.turnOut + multiset{kind})
  }

  function SkipNumber(p: Pool, a: nat): Pool {
    if p.numbers != [] && p.numbers[0] == a then p.(numbers := p.numbers[1..])
    else p.(numberOut := p.numberOut + multiset{a})
  }

  /** The first transaction of a bucket goes, and the bucket with its last one. */
  function DropFirst(p: Pool, a: nat): Pool
    requires a in p.buckets && p.buckets[a] != []
  {
    var b := p.buckets[a];
    p.(hashes := p.hashes - {b[0].hash}, buckets := if |b| == 1 then p.buckets - {a} else p.buckets[a := b[1..]])
  }

  function WithoutHash(s: seq<Tx>, h: nat): seq<Tx> {
    if s == [] then [] else if s[0].hash == h then s[1..] else [s[0]] + WithoutHash(s[1..], h)
  }

  /** Keys stay in the table when their transaction is removed, so a second removal is answered like the first. */
  function RemoveUtxo(p: Pool, h: nat): Pool {
    if p.utxos == [] || h !in p.keys then p
    else SkipTurn(p.(utxos := WithoutHash(p.utxos, h)), true).(hashes := p.hashes - {h})
  }

  /** Everything of the sender below the given sequence goes. */
  function RemoveBelow(p: Pool, a: nat, n: nat): Pool
    decreases if a in p.buckets then |p.buckets[a]| else 0
  {
    if a !in p.buckets || p.buckets[a] == [] || !p.buckets[a][0].Account? || n <= p.buckets[a][0].seqno then p
    else RemoveBelow(SkipNumber(SkipTurn(DropFirst(p, a), false), a), a, n)
  }

  function Remove(p: Pool, t: Tx): Pool {
    if t.Utxo? then RemoveUtxo(p, t.hash) else RemoveBelow(p, t.from, t.seqno)
  }

  // ---- taking ----

  datatype Turn = Turn(kind: bool, pool: Pool) | NoTurn(pool: Pool)

  /** The next turn that is not to be skipped. */
  function TakeTurn(p: Pool): Turn
    decreases |p.turns|
  {
    if p.turns == [] then NoTurn(p)
    else
      var kind, q := p.turns[0], p.(turns := p.turns[1..]);
      if p.turnOut[kind] > 0 then TakeTurn(q.(turnOut := p.turnOut - multiset{kind})) else Turn(kind, q)
  }

  datatype Number = Number(addr: nat, pool: Pool, remain: int) | NoNumber(pool: Pool)

  /** The next sender that is not to be skipped. */
  function TakeNumber(p: Pool, remain: int): Number
    decreases |p.numbers|
  {
    if p.numbers == [] then NoNumber(p)
    else
      var a, q := p.numbers[0], p.(numbers := p.numbers[1..]);
      if p.numberOut[a] > 0 then TakeNumber(q.(numberOut := p.numberOut - multiset{a}), remain - 1)
      else Number(a, q, remain - 1)
  }

  lemma {:induction false} RemainFalls(p: Pool, remain: int)
    ensures TakeNumber(p, remain).Number? ==> TakeNumber(p, remain).remain < remain
    decreases |p.numbers|
  {
    if p.numbers != [] && p.numberOut[p.numbers[0]] > 0 {
      RemainFalls(p.(numbers := p.numbers[1..], numberOut := p.numberOut - multiset{p.numbers[0]}), remain - 1);
    }
  }

  /** `Crashed` is a dereference of a queue or an item that is not there. */
  datatype Popped = Popped(pool: Pool, tx: Option<Tx>) | Crashed

  /** What to do with the first transaction of a sender. */
  datatype Verdict = Ready | Stale | Early | Seen | NoBucket

  function Judge(p: Pool, a: nat, ignored: set<nat>, seqs: nat -> nat): Verdict {
    if a in ignored then Seen
    else if a !in p.buckets || p.buckets[a] == [] || !p.buckets[a][0].Account? then NoBucket
    else if p.buckets[a][0].seqno < seqs(a) + 1 then Stale
    else if p.buckets[a][0].seqno > seqs(a) + 1 then Early
    else Ready
  }

  datatype Step = Done(popped: Popped) | Again(pool: Pool, ignored: set<nat>)

  /** A sender's turn: its first transaction is taken if its sequence follows the last one, dropped if it is
      stale, and left, with the sender passed over from then on, if it is too early. */
  function PopStep(q: Pool, a: nat, last: bool, ignored: set<nat>, seqs: nat -> nat): Step {
    match Judge(q, a, ignored, seqs)
    case NoBucket => Done(Crashed)
    case Ready => Done(Popped(DropFirst(q, a), Some(q.buckets[a][0])))
    case Stale =>
      if last then Done(Popped(DropFirst(q, a), None)) else Again(SkipTurn(DropFirst(q, a), false), ignored)
    case _ =>
      var back := q.(numbers := q.numbers + [a]);
      if last then Done(Popped(back.(turns := back.turns + [false]), None)) else Again(back, ignored + {a})
  }

  /** Going round the senders, each number that was there at the start at most once. */
  function PopAccount(p: Pool, remain: int, ignored: set<nat>, seqs: nat -> nat): Popped
    decreases if remain > 0 then remain else 0
  {
    RemainFalls(p, remain);
    var n := TakeNumber(p, remain);
    if n.NoNumber? then Popped(n.pool, None)
    else
      var s := PopStep(n.pool, n.addr, n.remain <= 0, ignored, seqs);
      if s.Done? then s.popped else PopAccount(s.pool, n.remain, s.ignored, seqs)
  }

  function Pop(p: Pool, seqs: nat -> nat): Popped {
    var t := TakeTurn(p);
    if t.NoTurn? then Popped(t.pool, None)
    else if !t.kind then PopAccount(t.pool, |t.pool.numbers|, {}, seqs)
    else if t.pool.utxos == [] then Crashed
    else
      var u := t.pool.utxos[0];
      Popped(t.pool.(utxos := t.pool.utxos[1..], keys := t.pool.keys - {u.hash}, hashes := t.pool.hashes - {u.hash}),
        Some(u))
  }

  // ---- accounting ----

  predicate InSequence(b: seq<Tx>) {
    forall i, j :: 0 <= i < j < |b| ==> b[i].Account? && b[j].Account? && b[i].seqno < b[j].seqno
  }

  /** A bucket: transactions of one sender, one for each sequence, in order, never empty. */
  predicate Bucket(b: seq<Tx>, from: nat) {
    b != [] && InSequence(b) && forall i :: 0 <= i < |b| ==> b[i].Account? && b[i].from == from
  }

  predicate Buckets(p: Pool) {
    forall a :: a in p.buckets ==> Bucket(p.buckets[a], a)
  }

  /** Turns of a kind that will not be skipped; negative when more are to be skipped than there are. */
  function Turns(p: Pool, kind: bool): int { multiset(p.turns)[kind] as int - p.turnOut[kind] as int }

  function Numbers(p: Pool, a: nat): int { multiset(p.numbers)[a] as int - p.numberOut[a] as int }

  /** All numbers that will not be skipped. */
  function AllNumbers(p: Pool): int { |p.numbers| - |p.numberOut| }

  /** For each sender, the numbers that will not be skipped are as many as its transactions, but for one in hand. */
  ghost predicate NumbersFit(p: Pool, hand: multiset<nat>) {
    p.numberOut <= multiset(p.numbers)
    && forall a: nat :: Numbers(p, a) + hand[a] == |BucketOf(p, a)|
  }

  lemma FirstOf<T>(s: seq<T>)
    requires s != []
    ensures multiset(s) == multiset{s[0]} + multiset(s[1..])
  {
    assert s == [s[0]] + s[1..];
  }

  lemma SkipTurnCounts(p: Pool, kind: bool)
    ensures var q := SkipTurn(p, kind);
      && Turns(q, kind) == Turns(p, kind) - 1 && Turns(q, !kind) == Turns(p, !kind)
      && q == p.(turns := q.turns, turnOut := q.turnOut)
  {
    if p.turns != [] { FirstOf(p.turns); }
  }

  lemma SkipNumberCounts(p: Pool, a: nat)
    requires p.numberOut <= multiset(p.numbers) && Numbers(p, a) > 0
    ensures var q := SkipNumber(p, a);
      q.numberOut <= multiset(q.numbers) && OneLess(p, q, a) && q == p.(numbers := q.numbers, numberOut := q.numberOut)
  {
    if p.numbers != [] { FirstOf(p.numbers); }
  }

  lemma TurnStep(p: Pool)
    requires p.turns != []
    ensures var kind, q := p.turns[0], p.(turns := p.turns[1..]);
      && Turns(q, kind) == Turns(p, kind) - 1 && Turns(q, !kind) == Turns(p, !kind)
      && (p.turnOut[kind] > 0 ==>
            var r := q.(turnOut := p.turnOut - multiset{kind});
            Turns(r, kind) == Turns(p, kind) && Turns(r, !kind) == Turns(p, !kind))
      && (p.turnOut[kind] == 0 ==> Turns(p, kind) > 0)
  {
    FirstOf(p.turns);
  }

  lemma {:induction false} TakeTurnCounts(p: Pool)
    ensures var t := TakeTurn(p);
      && t.pool == p.(turns := t.pool.turns, turnOut := t.pool.turnOut)
      && (t.NoTurn? ==> Turns(t.pool, true) == Turns(p, true) && Turns(t.pool, false) == Turns(p, false))
      && (t.Turn? ==> Turns(p, t.kind) > 0 && Turns(t.pool, t.kind) == Turns(p, t.kind) - 1
                      && Turns(t.pool, !t.kind) == Turns(p, !t.kind))
    decreases |p.turns|
  {
    if p.turns != [] {
      TurnStep(p);
      if p.turnOut[p.turns[0]] > 0 {
        TakeTurnCounts(p.(turns := p.turns[1..], turnOut := p.turnOut - multiset{p.turns[0]}));
      }
    }
  }

  /** The numbers of `q` are those of `p` without one of `a`. */
  ghost predicate OneLess(p: Pool, q: Pool, a: nat) {
    AllNumbers(q) == AllNumbers(p) - 1 && forall b: nat :: Numbers(q, b) == Numbers(p, b) - if b == a then 1 else 0
  }

  ghost predicate SameNumbers(p: Pool, q: Pool) {
    AllNumbers(q) == AllNumbers(p) && forall b: nat :: Numbers(q, b) == Numbers(p, b)
  }

  lemma NumberStep(p: Pool)
    requires p.numberOut <= multiset(p.numbers) && p.numbers != []
    ensures var a, q := p.numbers[0], p.(numbers := p.numbers[1..]);
      && (p.numberOut[a] == 0 ==> q.numberOut <= multiset(q.numbers) && OneLess(p, q, a))
      && (p.numberOut[a] > 0 ==>
            var r := q.(numberOut := p.numberOut - multiset{a});
            r.numberOut <= multiset(r.numbers) && SameNumbers(p, r))
  {
    FirstOf(p.numbers);
  }

  lemma OneLessAfterSame(p: Pool, r: Pool, q: Pool, a: nat)
    requires SameNumbers(p, r) && OneLess(r, q, a)
    ensures OneLess(p, q, a)
  {
  }

  /** The sender taken is one with a transaction; everyone else's count stays. */
  lemma {:induction false} TakeNumberCounts(p: Pool, remain: int)
    requires p.numberOut <= multiset(p.numbers)
    ensures var n := TakeNumber(p, remain);
      && n.pool == p.(numbers := n.pool.numbers, numberOut := n.pool.numberOut)
      && n.pool.numberOut <= multiset(n.pool.numbers)
      && (n.NoNumber? ==> n.pool.numbers == [] && SameNumbers(p, n.pool))
      && (n.Number? ==> OneLess(p, n.pool, n.addr))
    decreases |p.numbers|
  {
    if p.numbers != [] {
      NumberStep(p);
      var a := p.numbers[0];
      if p.numberOut[a] > 0 {
        var r := p.(numbers := p.numbers[1..], numberOut := p.numberOut - multiset{a});
        TakeNumberCounts(r, remain - 1);
        var n := TakeNumber(r, remain - 1);
        if n.Number? { OneLessAfterSame(p, r, n.pool, n.addr); }
      }
    }
  }

  /** What every operation keeps of the counts: no kind has more turns than transactions, and each sender has as
      many numbers as transactions. `spare` turns of account transactions and `hand` are owed. */
  ghost predicate Counted(p: Pool, spare: nat, hand: multiset<nat>) {
    && Buckets(p) && NumbersFit(p, hand)
    && Turns(p, true) <= |p.utxos|
    && Turns(p, false) + spare <= AllNumbers(p) + |hand|
  }

  lemma FitInHand(p: Pool, q: Pool, a: nat)
    requires NumbersFit(p, multiset{}) && OneLess(p, q, a) && q.buckets == p.buckets
    requires q.numberOut <= multiset(q.numbers)
    ensures NumbersFit(q, multiset{a}) && a in q.buckets
  {
    forall c: nat ensures Numbers(q, c) + multiset{a}[c] == |BucketOf(q, c)| {
      assert Numbers(p, c) + multiset{}[c] == |BucketOf(p, c)|;
    }
    assert q.numberOut[a] <= multiset(q.numbers)[a];
    assert Numbers(q, a) >= 0;
    assert Numbers(q, a) + multiset{a}[a] == |BucketOf(q, a)|;
  }

  /** A number has been taken and is in hand. */
  lemma InHand(p: Pool, remain: int)
    requires Counted(p, 1, multiset{}) && TakeNumber(p, remain).Number?
    ensures var n := TakeNumber(p, remain);
      Counted(n.pool, 1, multiset{n.addr}) && n.addr in n.pool.buckets
  {
    TakeNumberCounts(p, remain);
    var n := TakeNumber(p, remain);
    FitInHand(p, n.pool, n.addr);
  }

  lemma NothingToTake(p: Pool, remain: int)
    requires Counted(p, 1, multiset{}) && TakeNumber(p, remain).NoNumber?
    ensures Counted(TakeNumber(p, remain).pool, 0, multiset{})
  {
    TakeNumberCounts(p, remain);
  }

  lemma TailInSequence(b: seq<Tx>, a: nat)
    requires Bucket(b, a) && |b| > 1
    ensures Bucket(b[1..], a)
  {
  }

  /** The first transaction of the sender in hand goes. */
  lemma HandSpent(q: Pool, a: nat, spare: nat)
    requires Counted(q, spare, multiset{a}) && a in q.buckets
    ensures var r := DropFirst(q, a);
      && Buckets(r) && NumbersFit(r, multiset{}) && Turns(r, true) <= |r.utxos|
      && Turns(r, false) + spare <= AllNumbers(r) + 1
  {
    var b, r := q.buckets[a], DropFirst(q, a);
    if |b| > 1 { TailInSequence(b, a); }
    assert |BucketOf(r, a)| == |b| - 1;
    forall c: nat ensures Numbers(r, c) == |BucketOf(r, c)| {
      assert Numbers(q, c) + multiset{a}[c] == |BucketOf(q, c)|;
    }
  }

  /** The number in hand goes back to the end. */
  lemma HandReturned(q: Pool, a: nat)
    requires Counted(q, 1, multiset{a})
    ensures Counted(q.(numbers := q.numbers + [a]), 1, multiset{})
  {
    var r := q.(numbers := q.numbers + [a]);
    forall c: nat ensures Numbers(r, c) == |BucketOf(r, c)| {
      assert Numbers(q, c) + multiset{a}[c] == |BucketOf(q, c)|;
    }
  }

  lemma TurnReturned(p: Pool)
    requires Counted(p, 1, multiset{})
    ensures Counted(p.(turns := p.turns + [false]), 0, multiset{})
  {
  }

  lemma TurnSpent(p: Pool)
    requires Counted(p, 0, multiset{})
    ensures Counted(SkipTurn(p, false), 1, multiset{})
  {
    SkipTurnCounts(p, false);
  }

  lemma PopStepCounts(q: Pool, a: nat, last: bool, ignored: set<nat>, seqs: nat -> nat)
    requires Counted(q, 1, multiset{a}) && a in q.buckets
    ensures var s := PopStep(q, a, last, ignored, seqs);
      && (s.Done? ==> s.popped.Popped? && Counted(s.popped.pool, 0, multiset{}))
      && (s.Again? ==> !last && Counted(s.pool, 1, multiset{}))
  {
    assert Bucket(q.buckets[a], a);
    var v := Judge(q, a, ignored, seqs);
    if v.Ready? || v.Stale? {
      HandSpent(q, a, 1);
      TurnSpent(DropFirst(q, a));
    } else {
      HandReturned(q, a);
      TurnReturned(q.(numbers := q.numbers + [a]));
    }
  }

  /** Taking an account transaction never meets a missing bucket and keeps the counts. */
  lemma {:induction false} PopAccountCounts(p: Pool, remain: int, ignored: set<nat>, seqs: nat -> nat)
    requires Counted(p, 1, multiset{})
    ensures var r := PopAccount(p, remain, ignored, seqs);
      r.Popped? && Counted(r.pool, 0, multiset{})
    decreases if remain > 0 then remain else 0
  {
    RemainFalls(p, remain);
    var n := TakeNumber(p, remain);
    if n.NoNumber? {
      NothingToTake(p, remain);
    } else {
      InHand(p, remain);
      PopStepCounts(n.pool, n.addr, n.remain <= 0, ignored, seqs);
      var s := PopStep(n.pool, n.addr, n.remain <= 0, ignored, seqs);
      if s.Again? {
        PopAccountCounts(s.pool, n.remain, s.ignored, seqs);
      }
    }
  }

  /** Taking a transaction never crashes and keeps the counts. */
  lemma PopCounts(p: Pool, seqs: nat -> nat)
    requires Counted(p, 0, multiset{})
    ensures Pop(p, seqs).Popped? && Counted(Pop(p, seqs).pool, 0, multiset{})
  {
    TakeTurnCounts(p);
    var t := TakeTurn(p);
    if t.Turn? && !t.kind {
      assert SameNumbers(p, t.pool);
      PopAccountCounts(t.pool, |t.pool.numbers|, {}, seqs);
    }
  }

  // ---- adding and removing keep the counts ----

  lemma {:induction false} PlaceSpec(b: seq<Tx>, n: nat)
    requires forall i :: 0 <= i < |b| ==> b[i].Account?
    ensures var i := Place(b, n);
      (forall k :: 0 <= k < i ==> b[k].seqno <= n) && (i < |b| ==> n < b[i].seqno)
  {
    if b != [] && b[0].seqno <= n {
      PlaceSpec(b[1..], n);
    }
  }

  lemma PutInOrder(b: seq<Tx>, t: Tx, n: nat)
    requires t.Account? && n <= |b| && InSequence(b)
    requires forall k :: 0 <= k < |b| ==> b[k].Account? && b[k].from == t.from
    requires forall k :: 0 <= k < n ==> b[k].seqno < t.seqno
    requires forall k :: n <= k < |b| ==> t.seqno < b[k].seqno
    ensures Bucket(b[..n] + [t] + b[n..], t.from)
  {
    var c := b[..n] + [t] + b[n..];
    assert forall i :: 0 <= i < |c| ==> c[i] == if i < n then b[i] else if i == n then t else b[i - 1];
  }

  lemma PlaceSplits(b: seq<Tx>, t: Tx, n: nat)
    requires t.Account? && Bucket(b, t.from) && !HasSeq(b, t.seqno) && n == Place(b, t.seqno)
    ensures forall k :: 0 <= k < n ==> b[k].seqno < t.seqno
    ensures forall k :: n <= k < |b| ==> t.seqno < b[k].seqno
  {
    PlaceSpec(b, t.seqno);
    assert forall k :: 0 <= k < |b| ==> b[k].seqno != t.seqno;
    forall k | n <= k < |b| ensures t.seqno < b[k].seqno {
      if k > n { assert b[n].seqno < b[k].seqno; }
    }
  }

  lemma PutMembers(b: seq<Tx>, t: Tx, n: nat)
    requires n <= |b|
    ensures forall u :: u in b[..n] + [t] + b[n..] <==> u in b || u == t
  {
    assert b == b[..n] + b[n..];
  }

  lemma WithTxKeeps(b: seq<Tx>, t: Tx)
    requires t.Account? && (b == [] || Bucket(b, t.from)) && !HasSeq(b, t.seqno)
    ensures Bucket(WithTx(b, t), t.from) && |WithTx(b, t)| == |b| + 1
    ensures forall u :: u in WithTx(b, t) <==> u in b || u == t
  {
    var n := Place(b, t.seqno);
    if b != [] { PlaceSplits(b, t, n); }
    PutInOrder(b, t, n);
    PutMembers(b, t, n);
  }

  lemma AddedNumbers(p: Pool, a: nat, b: seq<Tx>, q: Pool)
    requires NumbersFit(p, multiset{}) && |b| == |BucketOf(p, a)| + 1
    requires q.buckets == p.buckets[a := b] && q.numbers == p.numbers + [a] && q.numberOut == p.numberOut
    ensures NumbersFit(q, multiset{}) && AllNumbers(q) == AllNumbers(p) + 1
  {
    forall c: nat ensures Numbers(q, c) + multiset{}[c] == |BucketOf(q, c)| {
      assert Numbers(p, c) + multiset{}[c] == |BucketOf(p, c)|;
    }
  }

  lemma AddedCounts(p: Pool, a: nat, b: seq<Tx>, hashes: set<nat>, q: Pool)
    requires Counted(p, 0, multiset{}) && Bucket(b, a) && |b| == |BucketOf(p, a)| + 1
    requires q == p.(buckets := p.buckets[a := b], numbers := p.numbers + [a], turns := p.turns + [false],
      hashes := hashes)
    ensures Counted(q, 0, multiset{})
  {
    AddedNumbers(p, a, b, q);
    assert Turns(q, false) == Turns(p, false) + 1 && Turns(q, true) == Turns(p, true);
  }

  lemma PushCounts(p: Pool, t: Tx)
    requires Counted(p, 0, multiset{})
    ensures Counted(Push(p, t), 0, multiset{})
  {
    if PushCode(p, t).Pushed? && t.Account? {
      WithTxKeeps(BucketOf(p, t.from), t);
      AddedCounts(p, t.from, WithTx(BucketOf(p, t.from), t), p.hashes + {t.hash}, Push(p, t));
    } else if PushCode(p, t).Pushed? {
      assert SameNumbers(p, Push(p, t));
    }
  }

  lemma {:induction false} WithoutHashSize(s: seq<Tx>, h: nat)
    ensures |WithoutHash(s, h)| >= |s| - 1
  {
    if s != [] && s[0].hash != h {
      WithoutHashSize(s[1..], h);
    }
  }

  lemma RemoveUtxoCounts(p: Pool, h: nat)
    requires Counted(p, 0, multiset{})
    ensures Counted(RemoveUtxo(p, h), 0, multiset{})
  {
    if p.utxos != [] && h in p.keys {
      var q := p.(utxos := WithoutHash(p.utxos, h));
      WithoutHashSize(p.utxos, h);
      SkipTurnCounts(q, true);
      var r := SkipTurn(q, true);
      assert SameNumbers(p, r);
    }
  }

  /** The first transaction of a sender goes, with one turn and one number. */
  lemma DropCounts(p: Pool, a: nat)
    requires Counted(p, 0, multiset{}) && a in p.buckets
    ensures Counted(SkipNumber(SkipTurn(DropFirst(p, a), false), a), 0, multiset{})
  {
    var b, q := p.buckets[a], DropFirst(p, a);
    var t := SkipTurn(q, false);
    SkipTurnCounts(q, false);
    assert Numbers(p, a) + multiset{}[a] == |BucketOf(p, a)|;
    SkipNumberCounts(t, a);
    var r := SkipNumber(t, a);
    if |b| > 1 { TailInSequence(b, a); }
    forall c: nat ensures Numbers(r, c) == |BucketOf(r, c)| {
      assert Numbers(p, c) + multiset{}[c] == |BucketOf(p, c)|;
    }
  }

  lemma {:induction false} RemoveBelowCounts(p: Pool, a: nat, n: nat)
    requires Counted(p, 0, multiset{})
    ensures Counted(RemoveBelow(p, a, n), 0, multiset{})
    decreases if a in p.buckets then |p.buckets[a]| else 0
  {
    if a in p.buckets && p.buckets[a] != [] && p.buckets[a][0].Account? && p.buckets[a][0].seqno < n {
      DropCounts(p, a);
      RemoveBelowCounts(SkipNumber(SkipTurn(DropFirst(p, a), false), a), a, n);
    }
  }

  lemma RemoveCounts(p: Pool, t: Tx)
    requires Counted(p, 0, multiset{})
    ensures Counted(Remove(p, t), 0, multiset{})
  {
    if t.Utxo? { RemoveUtxoCounts(p, t.hash); } else { RemoveBelowCounts(p, t.from, t.seqno); }
  }

  // ---- whole runs ----

  datatype Event = PushTx(t: Tx) | RemoveTx(t: Tx) | PopTx(seqs: nat -> nat)

  /** The pool after an event; a crash leaves nothing. */
  function Next(p: Pool, e: Event): Option<Pool> {
    match e
    case PushTx(t) => Some(Push(p, t))
    case RemoveTx(t) => Some(Remove(p, t))
    case PopTx(seqs) => var r := Pop(p, seqs); if r.Popped? then Some(r.pool) else None
  }

  function Run(es: seq<Event>): Option<Pool> {
    if es == [] then Some(Empty())
    else
      var p := Run(es[..|es| - 1]);
      if p.None? then None else Next(p.value, es[|es| - 1])
  }

  /** Over every run: no operation crashes, no kind of transaction has more turns than are queued, and each
      sender has exactly as many numbers as transactions. */
  lemma {:induction false} RunCounts(es: seq<Event>)
    ensures Run(es).Some? && Counted(Run(es).value, 0, multiset{})
  {
    if es == [] {
      assert multiset(Empty().numbers) == multiset{};
    } else {
      RunCounts(es[..|es| - 1]);
      var p := Run(es[..|es| - 1]).value;
      match es[|es| - 1]
      case PushTx(t) => PushCounts(p, t);
      case RemoveTx(t) => RemoveCounts(p, t);
      case PopTx(seqs) => PopCounts(p, seqs);
    }
  }
}
