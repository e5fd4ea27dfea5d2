/** The transaction pool as it works. */
module TxPoolNode {
  import opened Options
  import opened TxPool
  import opened TxPoolContents

  /** The transaction is the only one that joins, the hashes stay those of the queue, and the counts stay right. */
  ghost predicate Joined(p: Pool, t: Tx, q: Pool, code: Code) {
    && (Counted(p, 0, multiset{}) ==> Counted(q, 0, multiset{}))
    && (forall w: nat -> Tx :: Hashed(p, w) && Buckets(p) && w(t.hash) == t ==>
          Hashed(q, w) && (code == Pushed ==> forall u :: In(q, u) <==> In(p, u) || u == t))
    && (code != Pushed ==> q == p)
  }

  lemma PushJoins(p: Pool, t: Tx)
    ensures Joined(p, t, TxPool.Push(p, t), PushCode(p, t))
  {
    if Counted(p, 0, multiset{}) { PushCounts(p, t); }
    forall w: nat -> Tx | Hashed(p, w) && Buckets(p) && w(t.hash) == t
      ensures Hashed(TxPool.Push(p, t), w)
      ensures PushCode(p, t) == Pushed ==> forall u :: In(TxPool.Push(p, t), u) <==> In(p, u) || u == t
    {
      PushAdds(p, t, w);
    }
  }

  lemma TurnTaken(p: Pool)
    requires Counted(p, 0, multiset{})
    ensures var t := TakeTurn(p);
      && (t.Turn? && t.kind ==> t.pool.utxos != [])
      && (t.Turn? && !t.kind ==> Counted(t.pool, 1, multiset{}))
  {
    TakeTurnCounts(p);
    assert SameNumbers(p, TakeTurn(p).pool);
  }

  class TransactionPool {
    var turns: seq<bool>
    var numbers: seq<nat>
    var utxos: seq<Tx>
    var keys: map<nat, Tx>
    var hashes: set<nat>
    var turnOut: multiset<bool>
    var numberOut: multiset<nat>
    var buckets: map<nat, seq<Tx>>

    ghost function State(): Pool
      reads this
    {
      Pool(turns, numbers, utxos, keys, hashes, turnOut, numberOut, buckets)
    }

    constructor ()
      ensures State() == Empty()
    {
      turns, numbers, utxos, keys, hashes := [], [], [], map[], {};
      turnOut, numberOut, buckets := multiset{}, multiset{}, map[];
    }

    /** The number of transactions as the pool reports it. */
    method Size() returns (n: int)
      ensures n == |State().turns| - |State().turnOut|
    {
      n := |turns| - |turnOut|;
    }

    /** Queues a transaction, unless its hash or its sequence is queued already. */
    method PushItem(t: Tx) returns (code: Code)
      modifies this
      ensures Joined(old(State()), t, State(), code)
      ensures code == PushCode(old(State()), t) && State() == TxPool.Push(old(State()), t)
    {
      PushJoins(State(), t);
      if t.hash in hashes { return ExistTransaction; }
      if t.Utxo? {
        utxos, keys, turns := utxos + [t], keys[t.hash := t], turns + [true];
      } else {
        var b := if t.from in buckets then buckets[t.from] else [];
        if HasSeq(b, t.seqno) { return ExistTransactionSeq; }
        buckets, numbers, turns := buckets[t.from := WithTx(b, t)], numbers + [t.from], turns + [false];
      }
      hashes := hashes + {t.hash};
      code := Pushed;
    }

    method GiveUpTurn(kind: bool)
      modifies this`turns, this`turnOut
      ensures State() == SkipTurn(old(State()), kind)
    {
      if turns != [] && turns[0] == kind { turns := turns[1..]; } else { turnOut := turnOut + multiset{kind}; }
    }

    method GiveUpNumber(a: nat)
      modifies this`numbers, this`numberOut
      ensures State() == SkipNumber(old(State()), a)
    {
      if numbers != [] && numbers[0] == a { numbers := numbers[1..]; } else { numberOut := numberOut + multiset{a}; }
    }

    method DropTop(a: nat) returns (t: Tx)
      requires a in buckets && buckets[a] != []
      modifies this`hashes, this`buckets
      ensures t == old(buckets[a][0]) && State() == DropFirst(old(State()), a)
    {
      var b := buckets[a];
      t, hashes := b[0], hashes - {b[0].hash};
      buckets := if |b| == 1 then buckets - {a} else buckets[a := b[1..]];
    }

    /** Takes a transaction without a sequence out of the queue, or everything of a sender below a sequence. */
    method RemoveItem(t: Tx)
      modifies this
      ensures State() == TxPool.Remove(old(State()), t)
    {
      if t.Utxo? {
        if utxos != [] && t.hash in keys {
          utxos := WithoutHash(utxos, t.hash);
          GiveUpTurn(true);
          hashes := hashes - {t.hash};
        }
      } else {
        var a := t.from;
        while a in buckets && buckets[a] != [] && buckets[a][0].Account? && buckets[a][0].seqno < t.seqno
          invariant RemoveBelow(State(), a, t.seqno) == RemoveBelow(old(State()), a, t.seqno)
          decreases if a in buckets then |buckets[a]| else 0
        {
          var _ := DropTop(a);
          GiveUpTurn(false);
          GiveUpNumber(a);
        }
      }
    }

    /** The next turn that is not to be skipped. */
    method NextTurn() returns (found: bool, kind: bool)
      modifies this`turns, this`turnOut
      ensures var t := TakeTurn(old(State()));
        State() == t.pool && found == t.Turn? && (found ==> kind == t.kind)
    {
      kind := false;
      while turns != []
        invariant TakeTurn(State()) == TakeTurn(old(State()))
        decreases |turns|
      {
        kind := turns[0];
        turns := turns[1..];
        if turnOut[kind] > 0 {
          turnOut := turnOut - multiset{kind};
        } else {
          return true, kind;
        }
      }
      found := false;
    }

    /** The next sender that is not to be skipped. */
    method NextNumber(remain: int) returns (found: bool, a: nat, left: int)
      modifies this`numbers, this`numberOut
      ensures var n := TakeNumber(old(State()), remain);
        State() == n.pool && found == n.Number? && (found ==> a == n.addr && left == n.remain)
    {
      left, a := remain, 0;
      while numbers != []
        invariant TakeNumber(State(), left) == TakeNumber(old(State()), remain)
        decreases |numbers|
      {
        a := numbers[0];
        numbers, left := numbers[1..], left - 1;
        if numberOut[a] > 0 {
          numberOut := numberOut - multiset{a};
        } else {
          return true, a, left;
        }
      }
      found := false;
    }

    /** A sender's turn. */
    method Serve(a: nat, last: bool, ignored: set<nat>, seqs: nat -> nat) returns (done: bool, tx: Option<Tx>,
                 passed: set<nat>)
      requires a in buckets && buckets[a] != [] && buckets[a][0].Account?
      modifies this
      ensures PopStep(old(State()), a, last, ignored, seqs) == if done then Done(Popped(State(), tx))
        else Again(State(), passed)
    {
      tx, passed := None, ignored;
      var seqno, next := buckets[a][0].seqno, seqs(a) + 1;
      if a in ignored || seqno > next {
        passed, numbers := ignored + {a}, numbers + [a];
        if last { turns := turns + [false]; }
        done := last;
        return;
      }
      var t := DropTop(a);
      if seqno == next { return true, Some(t), passed; }
      if !last { GiveUpTurn(false); }
      done := last;
    }

    /** Goes round the senders for a transaction that is due. */
    method PopDue(seqs: nat -> nat) returns (tx: Option<Tx>)
      requires Counted(State(), 1, multiset{})
      modifies this
      ensures PopAccount(old(State()), |old(numbers)|, {}, seqs) == Popped(State(), tx)
    {
      var remain, ignored: set<nat> := |numbers|, {};
      ghost var goal := PopAccount(State(), |numbers|, {}, seqs);
      while true
        invariant Counted(State(), 1, multiset{})
        invariant PopAccount(State(), remain, ignored, seqs) == goal
        decreases if remain > 0 then remain else 0
      {
        ghost var p := State();
        RemainFalls(p, remain);
        var found, a, left := NextNumber(remain);
        if !found { return None; }
        InHand(p, remain);
        assert Bucket(buckets[a], a);
        PopStepCounts(State(), a, left <= 0, ignored, seqs);
        var done;
        done, tx, ignored := Serve(a, left <= 0, ignored, seqs);
        if done { return; }
        remain := left;
      }
    }

    /** Takes the next transaction: never crashes on a pool whose counts are right. */
    method PopItem(seqs: nat -> nat) returns (tx: Option<Tx>)
      requires Counted(State(), 0, multiset{})
      modifies this
      ensures TxPool.Pop(old(State()), seqs) == Popped(State(), tx) && Counted(State(), 0, multiset{})
    {
      ghost var p := State();
      PopCounts(p, seqs);
      TurnTaken(p);
      var found, kind := NextTurn();
      if !found { return None; }
      if kind {
        tx := PopUtxo();
      } else {
        tx := PopDue(seqs);
      }
    }

    method PopUtxo() returns (tx: Option<Tx>)
      requires utxos != []
      modifies this`utxos, this`keys, this`hashes
      ensures var u := old(utxos)[0];
        && tx == Some(u) && utxos == old(utxos)[1..] && keys == old(keys) - {u.hash} && hashes == old(hashes) - {u.hash}
    {
      var u := utxos[0];
      utxos, keys, hashes := utxos[1..], keys - {u.hash}, hashes - {u.hash};
      tx := Some(u);
    }
  }
}
