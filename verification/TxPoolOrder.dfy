/** The order in which the pool gives what was pushed, as long as nothing leaves it out of turn. */
module TxPoolOrder {
  import opened Options
  import opened TxPool
  import opened TxPoolContents
  import opened TxPoolDue

  // ---- one pop ----

  /** No queued transaction is behind the sequence of its sender. */
  ghost predicate NoneStale(p: Pool, seqs: nat -> nat) {
    forall a, i :: a in p.buckets && 0 <= i < |p.buckets[a]| && p.buckets[a][i].Account? ==>
      p.buckets[a][i].seqno > seqs(a)
  }

  /** Nothing is to be skipped. */
  predicate NoSkips(p: Pool) { p.turnOut == multiset{} && p.numberOut == multiset{} }

  /** Pools with the same turns and the same contents. */
  ghost predicate OnlyNumbers(p: Pool, q: Pool) { q == p.(numbers := q.numbers) }

  lemma NextNumber(p: Pool, remain: int)
    requires NoSkips(p) && p.numbers != []
    ensures TakeNumber(p, remain) == Number(p.numbers[0], p.(numbers := p.numbers[1..]), remain - 1)
  {
  }

  /** The first sender is due and its transaction is given, or it is not and goes to the end. */
  lemma StepInOrder(q: Pool, a: nat, last: bool, ignored: set<nat>, seqs: nat -> nat, s: Step)
    requires NoneStale(q, seqs) && a in q.buckets && Bucket(q.buckets[a], a)
    requires (a in ignored ==> !DueAt(q, a, seqs)) && s == PopStep(q, a, last, ignored, seqs)
    ensures DueAt(q, a, seqs) ==> s == Done(Popped(DropFirst(q, a), Some(q.buckets[a][0])))
    ensures !DueAt(q, a, seqs) ==>
      if last then s.Done? && s.popped.Popped? && s.popped.tx.None?
      else s.Again? && s.pool == q.(numbers := q.numbers + [a]) && (s.ignored == ignored || s.ignored == ignored + {a})
  {
    FirstDecides(q.buckets[a], a, seqs(a) + 1);
    assert q.buckets[a][0].seqno > seqs(a);
  }

  ghost predicate PassedOver(p: Pool, ignored: set<nat>, seqs: nat -> nat) {
    forall a :: a in ignored ==> !DueAt(p, a, seqs)
  }

  /** The senders before `j` are not due, and the one at `j` is. */
  ghost predicate FirstDue(p: Pool, j: int, seqs: nat -> nat) {
    && 0 <= j < |p.numbers| && DueAt(p, p.numbers[j], seqs)
    && forall i :: 0 <= i < j ==> !DueAt(p, p.numbers[i], seqs)
  }

  lemma DueRotates(p: Pool, q: Pool, seqs: nat -> nat, j: int)
    requires p.numbers != [] && q == p.(numbers := p.numbers[1..] + [p.numbers[0]])
    requires !DueAt(p, p.numbers[0], seqs) && FirstDue(q, j, seqs)
    ensures FirstDue(p, j + 1, seqs) && p.numbers[j + 1] == q.numbers[j]
  {
    var n := |p.numbers| - 1;
    assert forall a :: DueAt(q, a, seqs) <==> DueAt(p, a, seqs);
    assert q.numbers[n] == p.numbers[0] && forall i :: 0 <= i < n ==> q.numbers[i] == p.numbers[i + 1];
    assert forall i :: 0 < i <= j + 1 && i <= n ==> p.numbers[i] == q.numbers[i - 1];
  }

  /** What a round gives: the transaction of the first sender that is due, and neither turns nor other transactions
      change. */
  ghost predicate GivesFirst(p: Pool, r: Popped, j: int, seqs: nat -> nat) {
    && r.Popped? && FirstDue(p, j, seqs) && p.numbers[j] in p.buckets && p.buckets[p.numbers[j]] != []
    && r.tx == Some(p.buckets[p.numbers[j]][0])
    && OnlyNumbers(DropFirst(p, p.numbers[j]), r.pool)
  }

  lemma GivesRotated(p: Pool, q: Pool, r: Popped, j: int, seqs: nat -> nat)
    requires p.numbers != [] && q == p.(numbers := p.numbers[1..] + [p.numbers[0]])
    requires !DueAt(p, p.numbers[0], seqs) && GivesFirst(q, r, j, seqs)
    ensures GivesFirst(p, r, j + 1, seqs)
  {
    DueRotates(p, q, seqs, j);
  }

  lemma SameStale(p: Pool, q: Pool, seqs: nat -> nat)
    requires NoneStale(p, seqs) && q.buckets == p.buckets
    ensures NoneStale(q, seqs)
  {
  }

  lemma SamePassed(p: Pool, q: Pool, ignored: set<nat>, more: set<nat>, a: nat, seqs: nat -> nat)
    requires PassedOver(p, ignored, seqs) && q.buckets == p.buckets && !DueAt(p, a, seqs)
    requires more == ignored || more == ignored + {a}
    ensures PassedOver(q, more, seqs)
  {
  }

  /** The first sender has its turn. */
  lemma FirstInLine(p: Pool, remain: int, ignored: set<nat>, seqs: nat -> nat, a: nat, q: Pool, s: Step)
    requires NoSkips(p) && Counted(p, 1, multiset{}) && NoneStale(p, seqs) && PassedOver(p, ignored, seqs)
    requires p.numbers != [] && a == p.numbers[0] && q == p.(numbers := p.numbers[1..])
    requires s == PopStep(q, a, remain - 1 <= 0, ignored, seqs)
    ensures a in p.buckets && p.buckets[a] != []
    ensures PopAccount(p, remain, ignored, seqs) ==
      if s.Done? then s.popped else PopAccount(s.pool, remain - 1, s.ignored, seqs)
    ensures DueAt(p, a, seqs) ==> s == Done(Popped(DropFirst(q, a), Some(q.buckets[a][0])))
    ensures !DueAt(p, a, seqs) && s.Done? ==> s.popped.Popped? && s.popped.tx.None?
    ensures s.Again? ==> remain > 1 && s.pool == p.(numbers := p.numbers[1..] + [a]) && Counted(s.pool, 1, multiset{})
    ensures s.Again? ==> s.ignored == ignored || s.ignored == ignored + {a}
  {
    RemainFalls(p, remain);
    NextNumber(p, remain);
    InHand(p, remain);
    assert Bucket(q.buckets[a], a);
    SameStale(p, q, seqs);
    StepInOrder(q, a, remain - 1 <= 0, ignored, seqs, s);
    PopStepCounts(q, a, remain - 1 <= 0, ignored, seqs);
  }

  lemma GivesAtOnce(p: Pool, a: nat, q: Pool, r: Popped, seqs: nat -> nat)
    requires p.numbers != [] && a == p.numbers[0] && q == p.(numbers := p.numbers[1..]) && DueAt(p, a, seqs)
    requires p.buckets[a] != [] && r == Popped(DropFirst(q, a), Some(q.buckets[a][0]))
    ensures GivesFirst(p, r, 0, seqs)
  {
  }

  lemma NobodyInLine(p: Pool, remain: int, ignored: set<nat>, seqs: nat -> nat)
    requires p.numbers == []
    ensures PopAccount(p, remain, ignored, seqs) == Popped(p, None)
  {
  }

  /** Going on in order: nothing to skip, nothing stale, and whoever is passed over is not due. */
  ghost predicate GoesRound(p: Pool, remain: int, ignored: set<nat>, seqs: nat -> nat, r: Popped) {
    && NoSkips(p) && Counted(p, 1, multiset{}) && NoneStale(p, seqs) && PassedOver(p, ignored, seqs)
    && r == PopAccount(p, remain, ignored, seqs) && r.Popped? && r.tx.Some?
  }

  function Rotated(p: Pool): Pool
    requires p.numbers != []
  {
    p.(numbers := p.numbers[1..] + [p.numbers[0]])
  }

  lemma SomeoneInLine(p: Pool, remain: int, ignored: set<nat>, seqs: nat -> nat, r: Popped)
    requires GoesRound(p, remain, ignored, seqs, r)
    ensures p.numbers != []
  {
    if p.numbers == [] { NobodyInLine(p, remain, ignored, seqs); }
  }

  lemma TurnGiven(p: Pool, remain: int, ignored: set<nat>, seqs: nat -> nat, r: Popped, a: nat, q: Pool)
    requires GoesRound(p, remain, ignored, seqs, r) && p.numbers != []
    requires a == p.numbers[0] && q == p.(numbers := p.numbers[1..]) && DueAt(p, a, seqs)
    ensures GivesFirst(p, r, 0, seqs)
  {
    FirstInLine(p, remain, ignored, seqs, a, q, PopStep(q, a, remain - 1 <= 0, ignored, seqs));
    GivesAtOnce(p, a, q, r, seqs);
  }

  lemma TurnPassed(p: Pool, remain: int, ignored: set<nat>, seqs: nat -> nat, r: Popped, a: nat, q: Pool, s: Step)
    requires GoesRound(p, remain, ignored, seqs, r) && p.numbers != []
    requires a == p.numbers[0] && q == p.(numbers := p.numbers[1..]) && !DueAt(p, a, seqs)
    requires s == PopStep(q, a, remain - 1 <= 0, ignored, seqs)
    ensures remain > 1 && s.Again? && s.pool == Rotated(p) && GoesRound(s.pool, remain - 1, s.ignored, seqs, r)
  {
    FirstInLine(p, remain, ignored, seqs, a, q, s);
    SameStale(p, s.pool, seqs);
    SamePassed(p, s.pool, ignored, s.ignored, a, seqs);
  }

  lemma OneTurn(p: Pool, remain: int, ignored: set<nat>, seqs: nat -> nat, r: Popped) returns (more: set<nat>)
    requires GoesRound(p, remain, ignored, seqs, r) && p.numbers != [] && !DueAt(p, p.numbers[0], seqs)
    ensures remain > 1 && GoesRound(Rotated(p), remain - 1, more, seqs, r)
  {
    var a, q := p.numbers[0], p.(numbers := p.numbers[1..]);
    var s := PopStep(q, a, remain - 1 <= 0, ignored, seqs);
    TurnPassed(p, remain, ignored, seqs, r, a, q, s);
    more := s.ignored;
  }

  lemma {:induction false} RoundInOrder(p: Pool, remain: int, ignored: set<nat>, seqs: nat -> nat, r: Popped)
      returns (j: int)
    requires GoesRound(p, remain, ignored, seqs, r)
    ensures GivesFirst(p, r, j, seqs)
    decreases if remain > 0 then remain else 0
  {
    SomeoneInLine(p, remain, ignored, seqs, r);
    if DueAt(p, p.numbers[0], seqs) {
      TurnGiven(p, remain, ignored, seqs, r, p.numbers[0], p.(numbers := p.numbers[1..]));
      j := 0;
    } else {
      var more := OneTurn(p, remain, ignored, seqs, r);
      var i := RoundInOrder(Rotated(p), remain - 1, more, seqs, r);
      GivesRotated(p, Rotated(p), r, i, seqs);
      j := i + 1;
    }
  }

  /** Where nothing is stale and nothing is to be skipped, a pop that gives something takes exactly the first turn, and
      gives the oldest transaction without a sender, or the next one of the first sender in line that is due. */
  lemma PopInOrder(p: Pool, seqs: nat -> nat, r: Popped, q: Pool) returns (j: int)
    requires NoSkips(p) && Counted(p, 0, multiset{}) && NoneStale(p, seqs) && p.turns != []
    requires r == Pop(p, seqs) && r.Popped? && r.tx.Some? && q == p.(turns := p.turns[1..])
    ensures r.pool.turns == q.turns && NoSkips(r.pool)
    ensures p.turns[0] ==>
      p.utxos != [] && r.tx == Some(p.utxos[0]) && r.pool.utxos == p.utxos[1..] && r.pool.buckets == p.buckets
    ensures !p.turns[0] ==> r.pool.utxos == p.utxos && GivesFirst(q, r, j, seqs)
  {
    FirstTurn(p, q);
    j := 0;
    if !p.turns[0] {
      SameStale(p, q, seqs);
      j := RoundInOrder(q, |q.numbers|, {}, seqs, r);
    }
  }

  lemma FirstTurn(p: Pool, q: Pool)
    requires NoSkips(p) && p.turns != [] && q == p.(turns := p.turns[1..]) && Counted(p, 0, multiset{})
    ensures TakeTurn(p) == Turn(p.turns[0], q) && (!p.turns[0] ==> Counted(q, 1, multiset{}))
  {
    TakeTurnCounts(p);
    assert SameNumbers(p, q);
  }

  lemma SomeTurn(p: Pool, seqs: nat -> nat)
    requires Pop(p, seqs).Popped? && Pop(p, seqs).tx.Some?
    ensures p.turns != []
  {
  }

  // ---- runs ----

  /** The transactions that were accepted, in the order in which they were pushed. */
  function Accepted(es: seq<Event>): seq<Tx> {
    if es == [] then []
    else
      var front, e := es[..|es| - 1], es[|es| - 1];
      var p := Run(front);
      Accepted(front) + if e.PushTx? && p.Some? && PushCode(p.value, e.t).Pushed? then [e.t] else []
  }

  /** The transactions that were given, in that order. */
  function Given(es: seq<Event>): seq<Tx> {
    if es == [] then []
    else
      var front, e := es[..|es| - 1], es[|es| - 1];
      var p := Run(front);
      if e.PopTx? && p.Some? && Pop(p.value, e.seqs).Popped? && Pop(p.value, e.seqs).tx.Some?
      then Given(front) + [Pop(p.value, e.seqs).tx.value] else Given(front)
  }

  /** Only pushes and pops, and every pop finds something due and nothing stale. */
  ghost predicate Orderly(es: seq<Event>) {
    es == [] || (Orderly(es[..|es| - 1]) && OrderlyAt(Run(es[..|es| - 1]), es[|es| - 1]))
  }

  ghost predicate OrderlyAt(p: Option<Pool>, e: Event) {
    && !e.RemoveTx?
    && (e.PopTx? && p.Some? ==>
          NoneStale(p.value, e.seqs) && Pop(p.value, e.seqs).Popped? && Pop(p.value, e.seqs).tx.Some?)
  }

  function Kinds(ts: seq<Tx>): (r: seq<bool>)
    ensures |r| == |ts| && forall i :: 0 <= i < |ts| ==> r[i] == ts[i].Utxo?
  {
    seq(|ts|, i requires 0 <= i < |ts| => ts[i].Utxo?)
  }

  function Utxos(ts: seq<Tx>): seq<Tx> {
    if ts == [] then [] else Utxos(ts[..|ts| - 1]) + if ts[|ts| - 1].Utxo? then [ts[|ts| - 1]] else []
  }

  lemma UtxosSnoc(ts: seq<Tx>, t: Tx)
    ensures Utxos(ts + [t]) == Utxos(ts) + if t.Utxo? then [t] else []
  {
    assert (ts + [t])[..|ts|] == ts;
  }

  lemma KindsSnoc(ts: seq<Tx>, t: Tx)
    ensures Kinds(ts + [t]) == Kinds(ts) + [t.Utxo?]
  {
  }

  /** What was accepted is what was given and what is still to come. */
  ghost predicate InOrder(given: seq<Tx>, p: Pool, accepted: seq<Tx>) {
    && NoSkips(p) && Kinds(accepted) == Kinds(given) + p.turns && Utxos(accepted) == Utxos(given) + p.utxos
  }

  lemma PushInOrder(given: seq<Tx>, p: Pool, accepted: seq<Tx>, t: Tx)
    requires InOrder(given, p, accepted) && PushCode(p, t).Pushed?
    ensures InOrder(given, Push(p, t), accepted + [t])
  {
    KindsSnoc(accepted, t);
    UtxosSnoc(accepted, t);
  }

  lemma Shift<T>(whole: seq<T>, done: seq<T>, rest: seq<T>)
    requires whole == done + rest && rest != []
    ensures whole == (done + [rest[0]]) + rest[1..]
  {
  }

  lemma GivenNext(given: seq<Tx>, p: Pool, accepted: seq<Tx>, q: Pool, t: Tx)
    requires InOrder(given, p, accepted) && p.turns != [] && q.turns == p.turns[1..] && NoSkips(q)
    requires t.Utxo? == p.turns[0]
    requires if t.Utxo? then p.utxos != [] && t == p.utxos[0] && q.utxos == p.utxos[1..] else q.utxos == p.utxos
    ensures InOrder(given + [t], q, accepted)
  {
    KindsSnoc(given, t);
    UtxosSnoc(given, t);
    Shift(Kinds(accepted), Kinds(given), p.turns);
    if t.Utxo? { Shift(Utxos(accepted), Utxos(given), p.utxos); }
  }

  lemma PopNext(given: seq<Tx>, p: Pool, accepted: seq<Tx>, seqs: nat -> nat, w: nat -> Tx, r: Popped)
    requires InOrder(given, p, accepted) && Counted(p, 0, multiset{}) && Hashed(p, w) && NoneStale(p, seqs)
    requires r == Pop(p, seqs) && r.Popped? && r.tx.Some?
    ensures InOrder(given + [r.tx.value], r.pool, accepted)
  {
    SomeTurn(p, seqs);
    var j := PopInOrder(p, seqs, r, p.(turns := p.turns[1..]));
    if p.turns[0] {
      assert p.utxos[0] in p.utxos;
    } else {
      assert Bucket(p.buckets[p.numbers[j]], p.numbers[j]);
    }
    GivenNext(given, p, accepted, r.pool, r.tx.value);
  }

  lemma AfterPush(es: seq<Event>, front: seq<Event>, t: Tx, q: Pool)
    requires es == front + [PushTx(t)] && Run(front) == Some(q)
    ensures Run(es) == Some(Push(q, t)) && Given(es) == Given(front)
    ensures Accepted(es) == if PushCode(q, t).Pushed? then Accepted(front) + [t] else Accepted(front)
  {
    assert es[..|es| - 1] == front;
  }

  lemma AfterPop(es: seq<Event>, front: seq<Event>, seqs: nat -> nat, q: Pool, r: Popped)
    requires es == front + [PopTx(seqs)] && Run(front) == Some(q) && r == Pop(q, seqs) && r.Popped? && r.tx.Some?
    ensures Run(es) == Some(r.pool) && Given(es) == Given(front) + [r.tx.value] && Accepted(es) == Accepted(front)
  {
    assert es[..|es| - 1] == front;
  }

  /** Over every such run the two kinds come out in the order in which they were pushed, and so do the transactions
      without a sender themselves. */
  lemma {:induction false} RunInOrder(es: seq<Event>, w: nat -> Tx, p: Pool)
    requires (forall i :: 0 <= i < |es| ==> About(es[i], w)) && Orderly(es) && Run(es) == Some(p)
    ensures InOrder(Given(es), p, Accepted(es))
  {
    if es != [] {
      var front, e := es[..|es| - 1], es[|es| - 1];
      assert es == front + [e];
      RunCounts(front);
      RunHashed(front, w);
      var q := Run(front).value;
      RunInOrder(front, w, q);
      assert OrderlyAt(Run(front), e);
      match e
      case PopTx(seqs) =>
        AfterPop(es, front, seqs, q, Pop(q, seqs));
        PopNext(Given(front), q, Accepted(front), seqs, w, Pop(q, seqs));
      case PushTx(t) =>
        AfterPush(es, front, t, q);
        if PushCode(q, t).Pushed? { PushInOrder(Given(front), q, Accepted(front), t); }
    }
  }
}
