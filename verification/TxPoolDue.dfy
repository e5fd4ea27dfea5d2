/** When taking from the transaction pool gives something: exactly when a turn is left and, if it is one of account
    transactions, some sender has one that is due. */
module TxPoolDue {
  import opened Options
  import opened TxPool
  import opened TxPoolContents

  // ---- turns ----

  /** A turn can be taken if and only if some kind has more turns than are to be skipped. */
  lemma {:induction false} TurnIff(p: Pool)
    ensures TakeTurn(p).Turn? <==> Turns(p, true) > 0 || Turns(p, false) > 0
    decreases |p.turns|
  {
    if p.turns != [] {
      TurnStep(p);
      if p.turnOut[p.turns[0]] > 0 {
        TurnIff(p.(turns := p.turns[1..], turnOut := p.turnOut - multiset{p.turns[0]}));
      }
    }
  }

  // ---- the round of the senders ----

  /** Some sender that is not passed over has a transaction whose sequence follows its last one. */
  ghost predicate AnyDue(p: Pool, ignored: set<nat>, seqs: nat -> nat) {
    exists a :: a !in ignored && DueAt(p, a, seqs)
  }

  predicate DueAt(p: Pool, a: nat, seqs: nat -> nat) {
    a in p.buckets && HasSeq(p.buckets[a], seqs(a) + 1)
  }

  /** Behind the numbers that are still to be looked at stand only those of senders passed over. */
  ghost predicate Tail(p: Pool, remain: int, ignored: set<nat>) {
    remain <= |p.numbers| && forall i :: 0 <= i < |p.numbers| && remain <= i ==> p.numbers[i] in ignored
  }

  lemma TailStep(p: Pool, remain: int, ignored: set<nat>, q: Pool)
    requires Tail(p, remain, ignored) && p.numbers != [] && q.numbers == p.numbers[1..]
    ensures Tail(q, remain - 1, ignored)
  {
  }

  lemma {:induction false} TakeNumberTail(p: Pool, remain: int, ignored: set<nat>)
    requires Tail(p, remain, ignored) && TakeNumber(p, remain).Number?
    ensures Tail(TakeNumber(p, remain).pool, TakeNumber(p, remain).remain, ignored)
    decreases |p.numbers|
  {
    var a, q := p.numbers[0], p.(numbers := p.numbers[1..]);
    TailStep(p, remain, ignored, q);
    if p.numberOut[a] > 0 {
      TakeNumberTail(q.(numberOut := p.numberOut - multiset{a}), remain - 1, ignored);
    }
  }

  /** When nothing is left to be looked at, a sender has no more transactions than the one in hand. */
  lemma NothingLeft(q: Pool, remain: int, ignored: set<nat>, hand: multiset<nat>, b: nat)
    requires Tail(q, remain, ignored) && remain <= 0 && NumbersFit(q, hand) && b !in ignored
    ensures |BucketOf(q, b)| <= hand[b]
  {
    assert b !in q.numbers;
    assert Numbers(q, b) + hand[b] == |BucketOf(q, b)|;
  }

  lemma FirstDecides(b: seq<Tx>, a: nat, n: nat)
    requires Bucket(b, a)
    ensures b[0].seqno == n ==> HasSeq(b, n)
    ensures b[0].seqno > n ==> !HasSeq(b, n)
    ensures b[0].seqno < n && |b| == 1 ==> !HasSeq(b, n)
    ensures b[0].seqno < n && |b| > 1 ==> (HasSeq(b, n) <==> HasSeq(b[1..], n))
  {
    if b[0].seqno < n && |b| > 1 && HasSeq(b, n) {
      var i :| 0 <= i < |b| && b[i].Account? && b[i].seqno == n;
      assert b[1..][i - 1].seqno == n;
    }
  }

  /** With the last number in hand nobody is due but perhaps its sender. */
  lemma LastInHand(q: Pool, a: nat, remain: int, ignored: set<nat>, seqs: nat -> nat)
    requires Counted(q, 1, multiset{a}) && Tail(q, remain, ignored) && remain <= 0
    ensures forall b :: b !in ignored && b != a ==> !DueAt(q, b, seqs)
    ensures a !in ignored && a in q.buckets ==> |q.buckets[a]| == 1
  {
    forall b | b !in ignored && b in q.buckets ensures b == a && |q.buckets[b]| == 1 {
      NothingLeft(q, remain, ignored, multiset{a}, b);
      assert Bucket(q.buckets[b], b);
    }
  }

  /** One sender's turn gives something, or leaves the question as it was. */
  lemma StepDue(q: Pool, a: nat, remain: int, ignored: set<nat>, seqs: nat -> nat, s: Step)
    requires Counted(q, 1, multiset{a}) && a in q.buckets && Tail(q, remain, ignored)
    requires s == PopStep(q, a, remain <= 0, ignored, seqs)
    ensures s.Done? ==> s.popped.Popped? && (s.popped.tx.Some? <==> AnyDue(q, ignored, seqs))
    ensures s.Again? ==>
      Tail(s.pool, remain, s.ignored) && (AnyDue(s.pool, s.ignored, seqs) <==> AnyDue(q, ignored, seqs))
  {
    assert Bucket(q.buckets[a], a);
    FirstDecides(q.buckets[a], a, seqs(a) + 1);
    var v := Judge(q, a, ignored, seqs);
    if v.Ready? {
      assert DueAt(q, a, seqs);
    } else if remain <= 0 {
      LastInHand(q, a, remain, ignored, seqs);
    } else if v.Stale? {
      StaleDue(q, a, ignored, seqs, s.pool);
    } else {
      PassedDue(q, a, ignored, seqs, s.pool);
    }
  }

  lemma StaleDue(q: Pool, a: nat, ignored: set<nat>, seqs: nat -> nat, r: Pool)
    requires a in q.buckets && Bucket(q.buckets[a], a) && q.buckets[a][0].seqno <= seqs(a)
    requires r.buckets == DropFirst(q, a).buckets
    ensures AnyDue(r, ignored, seqs) <==> AnyDue(q, ignored, seqs)
  {
    FirstDecides(q.buckets[a], a, seqs(a) + 1);
    assert forall b :: DueAt(r, b, seqs) <==> DueAt(q, b, seqs);
  }

  lemma PassedDue(q: Pool, a: nat, ignored: set<nat>, seqs: nat -> nat, r: Pool)
    requires a in ignored || !DueAt(q, a, seqs)
    requires r.buckets == q.buckets
    ensures AnyDue(r, ignored + {a}, seqs) <==> AnyDue(q, ignored, seqs)
  {
    assert forall b :: DueAt(r, b, seqs) <==> DueAt(q, b, seqs);
  }

  lemma NoneDue(p: Pool, ignored: set<nat>, seqs: nat -> nat, q: Pool)
    requires Counted(p, 1, multiset{}) && SameNumbers(p, q) && q.numbers == []
    ensures !AnyDue(p, ignored, seqs)
  {
    forall a ensures !DueAt(p, a, seqs) {
      assert Numbers(p, a) + multiset{}[a] == |BucketOf(p, a)|;
      if a in p.buckets { assert Bucket(p.buckets[a], a); }
    }
  }

  /** Going round the senders finds a transaction if and only if one is due. */
  lemma {:induction false} PopAccountIff(p: Pool, remain: int, ignored: set<nat>, seqs: nat -> nat)
    requires Counted(p, 1, multiset{}) && Tail(p, remain, ignored)
    ensures var r := PopAccount(p, remain, ignored, seqs);
      r.Popped? && (r.tx.Some? <==> AnyDue(p, ignored, seqs))
    decreases if remain > 0 then remain else 0
  {
    RemainFalls(p, remain);
    TakeNumberCounts(p, remain);
    var n := TakeNumber(p, remain);
    if n.NoNumber? {
      NoneDue(p, ignored, seqs, n.pool);
    } else {
      InHand(p, remain);
      TakeNumberTail(p, remain, ignored);
      var s := PopStep(n.pool, n.addr, n.remain <= 0, ignored, seqs);
      StepDue(n.pool, n.addr, n.remain, ignored, seqs, s);
      PopStepCounts(n.pool, n.addr, n.remain <= 0, ignored, seqs);
      assert AnyDue(p, ignored, seqs) <==> AnyDue(n.pool, ignored, seqs);
      if s.Again? { PopAccountIff(s.pool, n.remain, s.ignored, seqs); }
    }
  }

  // ---- taking ----

  /** Some queued account transaction is due. */
  ghost predicate Due(p: Pool, seqs: nat -> nat) {
    exists u :: In(p, u) && u.Account? && u.seqno == seqs(u.from) + 1
  }

  lemma DueIs(p: Pool, seqs: nat -> nat, w: nat -> Tx)
    requires Hashed(p, w) && Buckets(p)
    ensures Due(p, seqs) <==> AnyDue(p, {}, seqs)
  {
    if AnyDue(p, {}, seqs) {
      var a :| a !in {} && DueAt(p, a, seqs);
      var i :| 0 <= i < |p.buckets[a]| && p.buckets[a][i].Account? && p.buckets[a][i].seqno == seqs(a) + 1;
      assert Bucket(p.buckets[a], a);
      assert In(p, p.buckets[a][i]);
    }
    if Due(p, seqs) {
      var u :| In(p, u) && u.Account? && u.seqno == seqs(u.from) + 1;
      var b := p.buckets[u.from];
      var i :| 0 <= i < |b| && b[i] == u;
      assert DueAt(p, u.from, seqs);
    }
  }

  /** Taking gives a transaction if and only if the next turn is one without sequences, or one of account
      transactions while some queued one is due. */
  lemma PopIff(p: Pool, seqs: nat -> nat, w: nat -> Tx)
    requires Hashed(p, w) && Counted(p, 0, multiset{})
    ensures Pop(p, seqs).Popped?
    ensures Pop(p, seqs).tx.Some? <==> TakeTurn(p).Turn? && (TakeTurn(p).kind || Due(p, seqs))
  {
    TakeTurnCounts(p);
    PopCounts(p, seqs);
    DueIs(p, seqs, w);
    var t := TakeTurn(p);
    if t.Turn? && !t.kind {
      assert SameNumbers(p, t.pool);
      PopAccountIff(t.pool, |t.pool.numbers|, {}, seqs);
      assert forall a :: DueAt(t.pool, a, seqs) <==> DueAt(p, a, seqs);
    }
  }

  /** Over every run, a pop gives nothing although a transaction is due if and only if the turns have run out. */
  lemma StuckIff(es: seq<Event>, seqs: nat -> nat, w: nat -> Tx, p: Pool)
    requires (forall i :: 0 <= i < |es| ==> About(es[i], w)) && Run(es) == Some(p) && Due(p, seqs)
    ensures Pop(p, seqs).Popped?
    ensures Pop(p, seqs).tx.None? <==> Turns(p, true) <= 0 && Turns(p, false) <= 0
  {
    RunHashed(es, w);
    RunCounts(es);
    PopIff(p, seqs, w);
    TurnIff(p);
  }
}
