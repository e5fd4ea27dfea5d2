/** Turns can be fewer than transactions: a run after which a transaction that is due is never taken. */
module TxPoolStuck {
  import opened Options
  import opened TxPool
  import opened TxPoolContents

  const X: Tx := Account(1, 10, 1)
  const Y: Tx := Account(2, 20, 1)
  const Y2: Tx := Account(3, 20, 2)
  const Z: Tx := Account(4, 30, 1)

  /** Sender 10 has used its first sequence, the others none. */
  function Seqs(a: nat): nat { if a == 10 then 1 else 0 }

  function Two(): Pool { Pool([false, false], [10, 20], [], map[], {1, 2}, multiset{}, multiset{}, map[10 := [X],
               20 := [Y]]) }

  function First(): Pool { Pool([false], [10], [], map[], {1}, multiset{}, multiset{}, map[10 := [X]]) }

  lemma PushFirst()
    ensures Push(Empty(), X) == First()
  {
    assert WithTx([], X) == [X];
  }

  lemma PushTwo()
    ensures Push(Push(Empty(), X), Y) == Two()
  {
    PushFirst();
    var p := First();
    assert WithTx([], Y) == [Y];
    assert p.numbers + [20] == [10, 20] && p.turns + [false] == [false, false];
  }

  /** The turn of the removed transaction goes at once, its number later. */
  function One(): Pool { Pool([false], [10, 20], [], map[], {1}, multiset{}, multiset{20}, map[10 := [X]]) }

  lemma RemoveOne()
    ensures Remove(Two(), Y2) == One()
  {
    var p := DropFirst(Two(), 20);
    assert p == Two().(hashes := {1}, buckets := map[10 := [X]]);
    assert SkipTurn(p, false).turns == [false];
    assert SkipNumber(SkipTurn(p, false), 20) == One();
    assert RemoveBelow(One(), 20, 2) == One();
  }

  /** Dropping the stale transaction gives up a turn too many: there is only a skipped number left. */
  function Owing(): Pool { Pool([], [], [], map[], {}, multiset{false}, multiset{}, map[]) }

  lemma PopStale()
    ensures Pop(One(), Seqs) == Popped(Owing(), None)
  {
    var p := One().(turns := []);
    assert One().turns[1..] == [];
    assert TakeTurn(One()) == Turn(false, p);
    var q := p.(numbers := [20]);
    assert p.numbers[1..] == [20];
    assert TakeNumber(p, 2) == Number(10, q, 1);
    assert Judge(q, 10, {}, Seqs) == Stale;
    var d := SkipTurn(DropFirst(q, 10), false);
    assert d == Pool([], [20], [], map[], {}, multiset{false}, multiset{20}, map[]);
    assert PopStep(q, 10, false, {}, Seqs) == Again(d, {});
    assert d.numbers[1..] == [];
    assert TakeNumber(d, 1) == TakeNumber(Owing(), 0) == NoNumber(Owing());
    assert PopAccount(d, 1, {}, Seqs) == Popped(Owing(), None);
  }

  function Waiting(): Pool { Pool([false], [30], [], map[], {4}, multiset{false}, multiset{}, map[30 := [Z]]) }

  lemma PushLast()
    ensures Push(Owing(), Z) == Waiting()
  {
    assert WithTx([], Z) == [Z];
  }

  lemma PopNothing()
    ensures Pop(Waiting(), Seqs) == Popped(Waiting().(turns := [], turnOut := multiset{}), None)
  {
    var p := Waiting().(turns := [], turnOut := multiset{});
    assert Waiting().turns[1..] == [] && multiset{false} - multiset{false} == multiset{};
    assert TakeTurn(Waiting()) == TakeTurn(p) == NoTurn(p);
  }

  lemma RunStep(es: seq<Event>, e: Event, p: Pool, q: Pool)
    requires Run(es) == Some(p) && Next(p, e) == Some(q)
    ensures Run(es + [e]) == Some(q)
  {
    assert (es + [e])[..|es|] == es;
  }

  function Early(): seq<Event> { [PushTx(X)] + [PushTx(Y)] + [RemoveTx(Y2)] }

  lemma RunEarly()
    ensures Run(Early()) == Some(One())
  {
    PushTwo();
    RemoveOne();
    assert Run([]) == Some(Empty()) && [] + [PushTx(X)] == [PushTx(X)];
    RunStep([], PushTx(X), Empty(), Push(Empty(), X));
    RunStep([PushTx(X)], PushTx(Y), Push(Empty(), X), Two());
    RunStep([PushTx(X)] + [PushTx(Y)], RemoveTx(Y2), Two(), One());
  }

  function History(): seq<Event> { Early() + [PopTx(Seqs)] + [PushTx(Z)] + [PopTx(Seqs)] }

  function Stuck(): Pool { Waiting().(turns := [], turnOut := multiset{}) }

  lemma RunLate()
    ensures Run(History()) == Some(Stuck())
  {
    RunEarly();
    PopStale();
    RunStep(Early(), PopTx(Seqs), One(), Owing());
    PushLast();
    RunStep(Early() + [PopTx(Seqs)], PushTx(Z), Owing(), Waiting());
    PopNothing();
    RunStep(Early() + [PopTx(Seqs)] + [PushTx(Z)], PopTx(Seqs), Waiting(), Stuck());
  }

  /** After this run `Z` is queued and due, and no pop will ever give it, whatever sequences it is asked with. */
  lemma DueButStuck(seqs: nat -> nat, p: Pool)
    requires Run(History()) == Some(p)
    ensures In(p, Z) && Z.seqno == Seqs(Z.from) + 1 && Pop(p, seqs) == Popped(p, None)
  {
    RunLate();
  }
}
