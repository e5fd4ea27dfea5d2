/** What is in the transaction pool: its table of hashes, and what each operation adds and takes. */
module TxPoolContents {
  import opened Options
  import opened TxPool

  /** `t` is queued. */
  predicate In(p: Pool, t: Tx) {
    t in p.utxos || (t.Account? && t.from in p.buckets && t in p.buckets[t.from])
  }

  /** `w` gives the one transaction of each hash. The table of hashes has exactly the queued ones; the table of
      keys has at least those of the queue without sequences. */
  ghost predicate Hashed(p: Pool, w: nat -> Tx) {
    && (forall t :: In(p, t) ==> w(t.hash) == t && t.hash in p.hashes)
    && (forall h :: h in p.hashes ==> w(h).hash == h && In(p, w(h)))
    && (forall t :: t in p.utxos ==> t.Utxo? && t.hash in p.keys)
    && (forall k :: k in p.keys ==> w(k).Utxo?)
    && (forall i, j :: 0 <= i < j < |p.utxos| ==> p.utxos[i] != p.utxos[j])
  }

  /** A transaction is accepted if and only if it is not queued, and no other one of its sender with its sequence is. */
  lemma PushIff(p: Pool, t: Tx, w: nat -> Tx)
    requires Hashed(p, w) && Buckets(p) && w(t.hash) == t
    ensures PushCode(p, t).Pushed? <==>
      !In(p, t) && forall u :: In(p, u) && u.Account? && t.Account? && u.from == t.from ==> u.seqno != t.seqno
  {
    if t.Account? {
      var b := BucketOf(p, t.from);
      if HasSeq(b, t.seqno) {
        var i :| 0 <= i < |b| && b[i].Account? && b[i].seqno == t.seqno;
        assert Bucket(b, t.from);
        assert In(p, b[i]);
      }
      OthersIn(p, w);
    }
  }

  lemma PushAdds(p: Pool, t: Tx, w: nat -> Tx)
    requires Hashed(p, w) && Buckets(p) && w(t.hash) == t
    ensures Hashed(Push(p, t), w)
    ensures PushCode(p, t).Pushed? ==> forall u :: In(Push(p, t), u) <==> In(p, u) || u == t
  {
    if PushCode(p, t).Pushed? {
      var q := Push(p, t);
      if t.Account? {
        var b := BucketOf(p, t.from);
        WithTxKeeps(b, t);
      }
      assert forall u :: In(q, u) <==> In(p, u) || u == t;
    }
  }

  /** The first transaction of a sender is the only one that leaves. */
  lemma DropTakes(p: Pool, a: nat, w: nat -> Tx)
    requires Hashed(p, w) && Buckets(p) && a in p.buckets
    ensures var q, t := DropFirst(p, a), p.buckets[a][0];
      && Hashed(q, w) && Buckets(q) && In(p, t)
      && forall u :: In(q, u) <==> In(p, u) && u != t
  {
    var b, q := p.buckets[a], DropFirst(p, a);
    var t := b[0];
    assert Bucket(b, a);
    assert b == [t] + b[1..];
    assert t !in b[1..];
    if |b| > 1 { TailInSequence(b, a); }
    assert forall u :: In(q, u) <==> In(p, u) && u != t;
  }

  lemma {:induction false} WithoutHashIs(s: seq<Tx>, h: nat)
    requires forall i, j :: 0 <= i < j < |s| ==> s[i].hash != s[j].hash
    ensures forall u :: u in WithoutHash(s, h) <==> u in s && u.hash != h
    ensures forall i, j :: 0 <= i < j < |WithoutHash(s, h)| ==> WithoutHash(s, h)[i].hash != WithoutHash(s, h)[j].hash
  {
    if s != [] {
      assert s == [s[0]] + s[1..];
      if s[0].hash != h {
        WithoutHashIs(s[1..], h);
        assert forall u :: u in s[1..] ==> u.hash != s[0].hash;
      }
    }
  }

  lemma HashesApart(p: Pool, w: nat -> Tx)
    requires Hashed(p, w)
    ensures forall i, j :: 0 <= i < j < |p.utxos| ==> p.utxos[i].hash != p.utxos[j].hash
  {
    forall i, j | 0 <= i < j < |p.utxos| ensures p.utxos[i].hash != p.utxos[j].hash {
      assert In(p, p.utxos[i]) && In(p, p.utxos[j]);
    }
  }

  /** Removing by hash takes exactly the transaction of that hash, if it is queued. */
  lemma RemoveUtxoTakes(p: Pool, h: nat, w: nat -> Tx)
    requires Hashed(p, w) && w(h).Utxo?
    ensures var q := RemoveUtxo(p, h);
      Hashed(q, w) && forall u :: In(q, u) <==> In(p, u) && u.hash != h
  {
    HashesApart(p, w);
    WithoutHashIs(p.utxos, h);
    var q := RemoveUtxo(p, h);
    forall u ensures In(q, u) <==> In(p, u) && u.hash != h {
      if In(p, u) && u.hash == h { assert w(h) == u; }
    }
  }

  lemma SkipsKeep(p: Pool, kind: bool, a: nat, w: nat -> Tx)
    ensures SkipTurn(p, kind).buckets == p.buckets && SkipTurn(p, kind).utxos == p.utxos
    ensures SkipNumber(p, a).buckets == p.buckets && SkipNumber(p, a).utxos == p.utxos
    ensures Hashed(p, w) ==> Hashed(SkipTurn(p, kind), w) && Hashed(SkipNumber(p, a), w)
    ensures forall u :: (In(SkipTurn(p, kind), u) <==> In(p, u)) && (In(SkipNumber(p, a), u) <==> In(p, u))
  {
    var q, r := SkipTurn(p, kind), SkipNumber(p, a);
    assert forall u :: (In(q, u) <==> In(p, u)) && (In(r, u) <==> In(p, u));
  }

  /** Of the sender's transactions, exactly those below the given sequence leave; that sequence itself stays. */
  lemma {:induction false} RemoveBelowTakes(p: Pool, a: nat, n: nat, w: nat -> Tx)
    requires Hashed(p, w) && Counted(p, 0, multiset{})
    ensures var q := RemoveBelow(p, a, n);
      Hashed(q, w) && forall u :: In(q, u) <==> In(p, u) && !(u.Account? && u.from == a && u.seqno < n)
    decreases if a in p.buckets then |p.buckets[a]| else 0
  {
    if a in p.buckets {
      var b := p.buckets[a];
      assert Bucket(b, a);
      if b[0].seqno < n {
        var q := DropFirst(p, a);
        DropTakes(p, a, w);
        SkipsKeep(q, false, a, w);
        SkipsKeep(SkipTurn(q, false), false, a, w);
        DropCounts(p, a);
        RemoveBelowTakes(SkipNumber(SkipTurn(q, false), a), a, n, w);
      } else {
        OthersIn(p, w);
        assert forall u :: u in b ==> u.seqno >= n;
      }
    } else {
      OthersIn(p, w);
    }
  }

  lemma OthersIn(p: Pool, w: nat -> Tx)
    requires Hashed(p, w)
    ensures forall u :: In(p, u) && u.Account? ==> u.from in p.buckets && u in p.buckets[u.from]
  {
  }

  /** What taking a transaction may do: it gives one that is queued and due, and else drops only stale ones. */
  ghost predicate Took(p: Pool, r: Popped, seqs: nat -> nat, w: nat -> Tx)
    requires r.Popped?
  {
    && Hashed(r.pool, w)
    && (forall u :: In(r.pool, u) ==> In(p, u))
    && (forall u :: In(p, u) && !In(r.pool, u) ==> r.tx == Some(u) || (u.Account? && u.seqno <= seqs(u.from)))
    && (r.tx.Some? ==> In(p, r.tx.value) && !In(r.pool, r.tx.value)
                       && (r.tx.value.Account? ==> r.tx.value.seqno == seqs(r.tx.value.from) + 1))
  }

  /** Pools that differ only in turns and numbers hold the same. */
  ghost predicate SameContents(p: Pool, q: Pool) {
    q == p.(turns := q.turns, turnOut := q.turnOut, numbers := q.numbers, numberOut := q.numberOut)
  }

  lemma SameHolds(p: Pool, q: Pool, w: nat -> Tx)
    requires SameContents(p, q) && Hashed(p, w)
    ensures Hashed(q, w) && forall u :: In(q, u) <==> In(p, u)
  {
    assert forall u :: In(q, u) <==> In(p, u);
  }

  lemma TookAfterSame(p: Pool, q: Pool, r: Popped, seqs: nat -> nat, w: nat -> Tx)
    requires SameContents(p, q) && Hashed(p, w) && r.Popped? && Took(q, r, seqs, w)
    ensures Took(p, r, seqs, w)
  {
    SameHolds(p, q, w);
  }

  /** A dropped stale transaction does not matter for what follows. */
  lemma TookAfterStale(p: Pool, a: nat, q: Pool, r: Popped, seqs: nat -> nat, w: nat -> Tx)
    requires Hashed(p, w) && Buckets(p) && a in p.buckets && p.buckets[a][0].seqno <= seqs(a)
    requires SameContents(DropFirst(p, a), q) && r.Popped? && Took(q, r, seqs, w)
    ensures Took(p, r, seqs, w)
  {
    DropTakes(p, a, w);
    SameHolds(DropFirst(p, a), q, w);
    assert Bucket(p.buckets[a], a);
  }

  lemma PopStepTakes(q: Pool, a: nat, last: bool, ignored: set<nat>, seqs: nat -> nat, w: nat -> Tx)
    requires Hashed(q, w) && Counted(q, 1, multiset{a}) && a in q.buckets && PopStep(q, a, last, ignored, seqs).Done?
    ensures var r := PopStep(q, a, last, ignored, seqs).popped;
      r.Popped? && Took(q, r, seqs, w)
  {
    PopStepCounts(q, a, last, ignored, seqs);
    assert Bucket(q.buckets[a], a);
    var v := Judge(q, a, ignored, seqs);
    if v.Ready? || v.Stale? {
      DropTakes(q, a, w);
    } else {
      var back := q.(numbers := q.numbers + [a]);
      SameHolds(q, back.(turns := back.turns + [false]), w);
    }
  }

  lemma {:induction false} PopAccountTakes(p: Pool, remain: int, ignored: set<nat>, seqs: nat -> nat, w: nat -> Tx)
    requires Hashed(p, w) && Counted(p, 1, multiset{})
    ensures var r := PopAccount(p, remain, ignored, seqs);
      r.Popped? && Took(p, r, seqs, w)
    decreases if remain > 0 then remain else 0, 0
  {
    RemainFalls(p, remain);
    TakeNumberCounts(p, remain);
    var n := TakeNumber(p, remain);
    SameHolds(p, n.pool, w);
    if n.Number? {
      InHand(p, remain);
      var last := n.remain <= 0;
      PopStepCounts(n.pool, n.addr, last, ignored, seqs);
      var s := PopStep(n.pool, n.addr, last, ignored, seqs);
      if s.Done? {
        PopStepTakes(n.pool, n.addr, last, ignored, seqs, w);
        TookAfterSame(p, n.pool, s.popped, seqs, w);
      } else {
        PopAgain(p, n.pool, n.addr, n.remain, ignored, seqs, w);
      }
    }
  }

  /** One more round. */
  lemma PopAgain(p: Pool, q: Pool, a: nat, remain: int, ignored: set<nat>, seqs: nat -> nat, w: nat -> Tx)
    requires Hashed(p, w) && SameContents(p, q) && Counted(q, 1, multiset{a}) && a in q.buckets && remain > 0
    requires PopStep(q, a, false, ignored, seqs).Again?
    ensures var s := PopStep(q, a, false, ignored, seqs);
      var r := PopAccount(s.pool, remain, s.ignored, seqs);
      r.Popped? && Took(p, r, seqs, w)
    decreases remain, 1
  {
    SameHolds(p, q, w);
    PopStepCounts(q, a, false, ignored, seqs);
    assert Bucket(q.buckets[a], a);
    var s := PopStep(q, a, false, ignored, seqs);
    var r := PopAccount(s.pool, remain, s.ignored, seqs);
    if Judge(q, a, ignored, seqs).Stale? {
      DropTakes(q, a, w);
      SameHolds(DropFirst(q, a), s.pool, w);
      PopAccountTakes(s.pool, remain, s.ignored, seqs, w);
      TookAfterStale(q, a, s.pool, r, seqs, w);
      TookAfterSame(p, q, r, seqs, w);
    } else {
      SameHolds(q, s.pool, w);
      PopAccountTakes(s.pool, remain, s.ignored, seqs, w);
      TookAfterSame(p, s.pool, r, seqs, w);
    }
  }

  /** Without sequences the pool is a queue: the first transaction is taken and nothing else changes. */
  lemma PopUtxoTakes(p: Pool, seqs: nat -> nat, w: nat -> Tx)
    requires Hashed(p, w) && Counted(p, 0, multiset{}) && TakeTurn(p).Turn? && TakeTurn(p).kind
    ensures var r := Pop(p, seqs);
      && r.Popped? && p.utxos != [] && r.tx == Some(p.utxos[0]) && r.pool.utxos == p.utxos[1..]
      && r.pool.buckets == p.buckets && Took(p, r, seqs, w)
  {
    TakeTurnCounts(p);
    PopCounts(p, seqs);
    HashesApart(p, w);
    var r, u := Pop(p, seqs), p.utxos[0];
    assert p.utxos == [u] + p.utxos[1..];
    assert forall t :: In(r.pool, t) <==> In(p, t) && t != u;
  }

  /** Taking gives a queued transaction that is due, or nothing, and drops only stale ones. */
  lemma PopTakes(p: Pool, seqs: nat -> nat, w: nat -> Tx)
    requires Hashed(p, w) && Counted(p, 0, multiset{})
    ensures Pop(p, seqs).Popped? && Took(p, Pop(p, seqs), seqs, w)
  {
    TakeTurnCounts(p);
    PopCounts(p, seqs);
    var t := TakeTurn(p);
    SameHolds(p, t.pool, w);
    if t.Turn? && t.kind {
      PopUtxoTakes(p, seqs, w);
    } else if t.Turn? {
      assert SameNumbers(p, t.pool);
      PopAccountTakes(t.pool, |t.pool.numbers|, {}, seqs, w);
      TookAfterSame(p, t.pool, Pop(p, seqs), seqs, w);
    }
  }

  /** The events speak of the one transaction of each hash. */
  predicate About(e: Event, w: nat -> Tx) {
    match e
    case PushTx(t) => w(t.hash) == t
    case RemoveTx(t) => w(t.hash) == t
    case PopTx(_) => true
  }

  /** Over every run the table of hashes has exactly the queued transactions. */
  lemma {:induction false} RunHashed(es: seq<Event>, w: nat -> Tx)
    requires forall i :: 0 <= i < |es| ==> About(es[i], w)
    ensures Run(es).Some? && Hashed(Run(es).value, w)
  {
    RunCounts(es);
    if es != [] {
      var front, e := es[..|es| - 1], es[|es| - 1];
      RunHashed(front, w);
      RunCounts(front);
      var p := Run(front).value;
      assert About(e, w);
      match e
      case PushTx(t) => PushAdds(p, t, w);
      case RemoveTx(t) =>
        if t.Utxo? { RemoveUtxoTakes(p, t.hash, w); } else { RemoveBelowTakes(p, t.from, t.seqno, w); }
      case PopTx(seqs) => PopTakes(p, seqs, w);
    }
  }

  lemma {:induction false} WithoutHashShorter(s: seq<Tx>, h: nat)
    ensures |WithoutHash(s, h)| < |s| <==> exists i :: 0 <= i < |s| && s[i].hash == h
    ensures !(|WithoutHash(s, h)| < |s|) ==> WithoutHash(s, h) == s
  {
    if s != [] && s[0].hash != h {
      WithoutHashShorter(s[1..], h);
      if exists i :: 0 <= i < |s| && s[i].hash == h {
        var i :| 0 <= i < |s| && s[i].hash == h;
        assert s[1..][i - 1].hash == h;
      }
    }
  }

  /** Removing by hash gives up a turn without a transaction exactly when the key is a left-over of an earlier
      removal and the queue is not empty. */
  lemma TurnLostIff(p: Pool, h: nat)
    ensures var q := RemoveUtxo(p, h);
      Turns(q, true) < Turns(p, true) && q.utxos == p.utxos
      <==> p.utxos != [] && h in p.keys && forall i :: 0 <= i < |p.utxos| ==> p.utxos[i].hash != h
  {
    WithoutHashShorter(p.utxos, h);
    SkipTurnCounts(p.(utxos := WithoutHash(p.utxos, h)), true);
  }
}
