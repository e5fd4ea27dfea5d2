/** What executing a block establishes: it could have been made, with the results that it records, and its transactions
    follow the sequences of their senders. */
module BlockChecks {
  import opened Options
  import opened Overlay
  import opened BlockExec

  // ---- an executed block could have been made ----

  /** What the block records for a transaction; nothing is recorded for one without a sender. */
  function Recorded(body: Body, i: nat): nat {
    if i < |body.txs| && body.txs[i].from.Some? && i < |body.results| then body.results[i] else 0
  }

  function RecordedUpTo(body: Body, n: nat): (r: seq<nat>)
    ensures |r| == n
  {
    seq(n, i requires 0 <= i < n => Recorded(body, i))
  }

  /** The block as its maker writes it: one result for each transaction. */
  function Normal(body: Body): Body { body.(results := RecordedUpTo(body, |body.txs|)) }

  /** A transaction that executes is one that the maker of a block adds, with the result that is recorded. */
  lemma ExecutedAdds(c: Creator, b: Base, body: Body, i: nat, u: seq<Layer>)
    requires i == |c.body.txs| < |body.txs| && c.body.generator == body.generator && Framed(body.txs[i])
    requires ExecTx(c.stack, b, body, i) == ExecStep.Next(u)
    ensures body.txs[i].from.Some? ==> i < |body.results|
    ensures AddTx(c, b, body.txs[i]) ==
      Added(Creator(u, c.body.(txs := c.body.txs + [body.txs[i]], results := c.body.results + [Recorded(body, i)])))
  {
    ValidateOver(body.txs[i], Snapshot(c.stack));
  }

  ghost predicate AllFramed(txs: seq<Tx>) { forall i :: 0 <= i < |txs| ==> Framed(txs[i]) }

  function Part(body: Body, n: nat): Body
    requires n <= |body.txs|
  {
    Body(body.generator, body.txs[..n], RecordedUpTo(body, n))
  }

  lemma PartNext(body: Body, n: nat)
    requires n < |body.txs|
    ensures Part(body, n + 1) == Body(body.generator, body.txs[..n] + [body.txs[n]],
                                      RecordedUpTo(body, n) + [Recorded(body, n)])
  {
    assert RecordedUpTo(body, n + 1) == RecordedUpTo(body, n) + [Recorded(body, n)];
  }

  lemma ReachedBefore(s: seq<Layer>, b: Base, body: Body, n: nat, r: ExecStep, u: ExecStep)
    requires n < |body.txs| && r == ExecAll(s, b, body, n) && u == ExecAll(s, b, body, n + 1) && u.Next?
    ensures r.Next? && u == ExecTx(r.stack, b, body, n)
  {
  }

  lemma ResultThere(b: Base, body: Body, i: nat, t: seq<Layer>, u: seq<Layer>)
    requires i < |body.txs| && AllFramed(body.txs) && ExecTx(t, b, body, i) == ExecStep.Next(u)
    ensures body.txs[i].from.Some? ==> i < |body.results|
  {
    ExecutedAdds(Creator(t, Part(body, i)), b, body, i, u);
  }

  lemma AddsNext(c: Creator, b: Base, body: Body, n: nat, q: seq<Layer>, u: seq<Layer>)
    requires n < |body.txs| && Framed(body.txs[n]) && ExecTx(q, b, body, n) == ExecStep.Next(u)
    requires AddAll(c, b, body.txs[..n]) == Creator(q, Part(body, n))
    ensures AddAll(c, b, body.txs[..n + 1]) == Creator(u, Part(body, n + 1))
  {
    assert body.txs[..n + 1][..n] == body.txs[..n];
    ExecutedAdds(Creator(q, Part(body, n)), b, body, n, u);
    PartNext(body, n);
  }

  /** `inv` holds from one state to the next. */
  ghost predicate Carries(b: Base, body: Body, inv: (seq<Layer>, nat) -> bool) {
    forall t, i: nat, u :: i < |body.txs| && inv(t, i) && ExecTx(t, b, body, i) == ExecStep.Next(u) ==> inv(u, i + 1)
  }

  lemma {:induction false} ExecCarries(s: seq<Layer>, b: Base, body: Body, n: nat, inv: (seq<Layer>, nat) -> bool)
    requires n <= |body.txs| && inv(s, 0) && Carries(b, body, inv)
    ensures ExecAll(s, b, body, n).Next? ==> inv(ExecAll(s, b, body, n).stack, n)
    decreases n
  {
    if n > 0 { ExecCarries(s, b, body, n - 1, inv); }
  }

  /** Offering its transactions to a maker, one after another, gives the same states and the same block. */
  lemma AddsAlike(init: seq<Layer>, b: Base, body: Body, n: nat, r: ExecStep)
    requires n <= |body.txs| && AllFramed(body.txs) && r == ExecAll(init, b, body, n)
    ensures r.Next? ==>
      AddAll(Creator(init, Body(body.generator, [], [])), b, body.txs[..n]) == Creator(r.stack, Part(body, n))
  {
    var c := Creator(init, Body(body.generator, [], []));
    var inv := (t: seq<Layer>, i: nat) =>
      i <= |body.txs| && AddAll(c, b, body.txs[..i]) == Creator(t, Part(body, i));
    AddsNone(c, b, body);
    AddsCarry(c, b, body, inv);
    ExecCarries(init, b, body, n, inv);
  }

  lemma AddsNone(c: Creator, b: Base, body: Body)
    requires c.body == Body(body.generator, [], [])
    ensures AddAll(c, b, body.txs[..0]) == Creator(c.stack, Part(body, 0))
  {
  }

  lemma AddsCarry(c: Creator, b: Base, body: Body, inv: (seq<Layer>, nat) -> bool)
    requires AllFramed(body.txs)
    requires inv == ((t: seq<Layer>, i: nat) =>
      i <= |body.txs| && AddAll(c, b, body.txs[..i]) == Creator(t, Part(body, i)))
    ensures Carries(b, body, inv)
  {
    forall t, i: nat, u | i < |body.txs| && inv(t, i) && ExecTx(t, b, body, i) == ExecStep.Next(u)
      ensures inv(u, i + 1)
    {
      AddsNext(c, b, body, i, t, u);
    }
  }

  /** No transaction out of sequence is reached. */
  ghost predicate InSequence(s: seq<Layer>, b: Base, h: Hooks, body: Body) {
    RunBefore(s, h.before).Ok? ==>
      forall i :: 0 <= i < |body.txs| ==> !StopsAt(RunBefore(s, h.before).stack, b, body, i)
  }

  /** The hooks make no difference between the two blocks. */
  ghost predicate Alike(h: Hooks, body: Body, other: Body) {
    forall i, s :: 0 <= i < |h.after| ==> h.after[i](s, body) == h.after[i](s, other)
  }

  lemma {:induction false} HooksAlike(s: seq<Layer>, h: Hooks, body: Body, other: Body, n: nat)
    requires Alike(h, body, other) && n <= |h.after|
    ensures RunAfter(s, body, h.after[..n]) == RunAfter(s, other, h.after[..n])
  {
    if n > 0 {
      HooksAlike(s, h, body, other, n - 1);
      assert h.after[..n][..n - 1] == h.after[..n - 1];
    }
  }

  lemma WholePart(body: Body)
    ensures body.txs[..|body.txs|] == body.txs && Part(body, |body.txs|) == Normal(body)
  {
  }

  lemma SameAfter(s: seq<Layer>, h: Hooks, body: Body, other: Body)
    requires Alike(h, body, other)
    ensures RunAfter(s, body, h.after) == RunAfter(s, other, h.after)
  {
    HooksAlike(s, h, body, other, |h.after|);
    assert h.after[..|h.after|] == h.after;
  }

  lemma MadeFrom(s: seq<Layer>, b: Base, h: Hooks, body: Body, init: seq<Layer>, r: seq<Layer>, t: seq<Layer>)
    requires RunBefore(s, h.before) == Ok(init) && RunAfter(r, Normal(body), h.after) == Ok(t) && |r| <= 1
    requires AddAll(Creator(init, Body(body.generator, [], [])), b, body.txs) == Creator(r, Normal(body))
    ensures Create(s, b, h, body.generator, body.txs) == Made(Normal(body), t)
  {
  }

  lemma WholeRun(s: seq<Layer>, b: Base, h: Hooks, body: Body, t: seq<Layer>) returns (init: seq<Layer>, r: ExecStep)
    requires AllFramed(body.txs) && Execute(s, b, h, body) == Ok(t) && InSequence(s, b, h, body)
    ensures RunBefore(s, h.before) == Ok(init) && r == ExecAll(init, b, body, |body.txs|) && r.Next?
    ensures |r.stack| <= 1 && RunAfter(r.stack, body, h.after) == Ok(t)
  {
    init := RunBefore(s, h.before).stack;
    WholeIff(s, b, h, body, init);
    r := ExecAll(init, b, body, |body.txs|);
  }

  predicate RecordedTo(body: Body, n: nat) {
    forall j :: 0 <= j < n <= |body.txs| && body.txs[j].from.Some? ==> j < |body.results|
  }

  lemma RecordsCarry(b: Base, body: Body, inv: (seq<Layer>, nat) -> bool)
    requires AllFramed(body.txs) && inv == ((t: seq<Layer>, i: nat) => RecordedTo(body, i))
    ensures Carries(b, body, inv)
  {
    forall t, i: nat, u | i < |body.txs| && inv(t, i) && ExecTx(t, b, body, i) == ExecStep.Next(u)
      ensures inv(u, i + 1)
    {
      ResultThere(b, body, i, t, u);
    }
  }

  lemma AllRecorded(init: seq<Layer>, b: Base, body: Body, n: nat)
    requires AllFramed(body.txs) && n <= |body.txs| && ExecAll(init, b, body, n).Next?
    ensures RecordedTo(body, n)
  {
    var inv := (t: seq<Layer>, i: nat) => RecordedTo(body, i);
    RecordsCarry(b, body, inv);
    ExecCarries(init, b, body, n, inv);
  }

  /** Whatever is accepted and in sequence could have been made: its own transactions, offered to an honest maker, give
      a block with the same transactions, the same result for each transaction with a sender, and the same state. */
  lemma ExecutedIsMade(s: seq<Layer>, b: Base, h: Hooks, body: Body, t: seq<Layer>)
    requires AllFramed(body.txs)
    requires Execute(s, b, h, body) == Ok(t) && InSequence(s, b, h, body) && Alike(h, body, Normal(body))
    ensures Create(s, b, h, body.generator, body.txs) == Made(Normal(body), t)
    ensures forall i :: 0 <= i < |body.txs| && body.txs[i].from.Some? ==>
      i < |body.results| && Normal(body).results[i] == body.results[i]
  {
    var init, r := WholeRun(s, b, h, body, t);
    AddsAlike(init, b, body, |body.txs|, r);
    WholePart(body);
    SameAfter(r.stack, h, body, Normal(body));
    MadeFrom(s, b, h, body, init, r.stack, t);
    AllRecorded(init, b, body, |body.txs|);
  }

  lemma MadeReaches(init: seq<Layer>, b: Base, body: Body, i: nat)
    requires i < |body.txs| && ExecAll(init, b, body, |body.txs|).Next? && Framed(body.txs[i])
    ensures !StopsAt(init, b, body, i)
  {
    if StopsAt(init, b, body, i) { EndsEarly(init, b, body, i, ExecAll(init, b, body, i)); }
  }

  /** For a block with one result for each transaction: it is accepted and in sequence, with a state, if and only if an
      honest maker that is offered its transactions makes this very block, with this state. */
  lemma AcceptedIff(s: seq<Layer>, b: Base, h: Hooks, body: Body, t: seq<Layer>)
    requires AllFramed(body.txs) && body == Normal(body)
    ensures Execute(s, b, h, body) == Ok(t) && InSequence(s, b, h, body) <==>
      Create(s, b, h, body.generator, body.txs) == Made(body, t)
  {
    if Execute(s, b, h, body) == Ok(t) && InSequence(s, b, h, body) {
      ExecutedIsMade(s, b, h, body, t);
    }
    if Create(s, b, h, body.generator, body.txs) == Made(body, t) {
      MadeExecutes(s, b, h, body.generator, body.txs);
      var init := RunBefore(s, h.before).stack;
      var c := Creator(init, Body(body.generator, [], []));
      AddAllExecutes(c, b, body.txs, body, AddAll(c, b, body.txs));
      forall i | 0 <= i < |body.txs| ensures !StopsAt(init, b, body, i) { MadeReaches(init, b, body, i); }
    }
  }

  // ---- sequences ----

  /** No layer has deleted the account. */
  predicate Alive(s: seq<Layer>, a: Addr) { forall i :: 0 <= i < |s| ==> a !in s[i].dead }

  /** A transaction neither deletes the account nor counts its sequence: the block does the latter. */
  ghost predicate Spares(tx: Tx, b: Base, a: Addr) {
    forall s: seq<Layer>, i: nat {:trigger tx.execute(s, i)} :: s != [] && Alive(s, a) ==>
      var v, e := tx.validate(s).stack, tx.execute(s, i).stack;
      Alive(v, a) && Alive(e, a) && ReadSeq(v, b, a) == ReadSeq(s, b, a) && ReadSeq(e, b, a) == ReadSeq(s, b, a)
  }

  ghost predicate AllSpare(txs: seq<Tx>, b: Base, a: Addr) { forall i :: 0 <= i < |txs| ==> Spares(txs[i], b, a) }

  lemma MergeSeq(s: seq<Layer>, b: Base, a: Addr, t: seq<Layer>)
    requires |s| >= 2 && Alive(s, a) && t == WithTop(s[..|s| - 1], Merge(s[|s| - 2], s[|s| - 1]))
    ensures Alive(t, a) && ReadSeq(t, b, a) == ReadSeq(s, b, a)
  {
    var n := |s| - 2;
    var rest, lower, upper := s[..n], s[n], s[n + 1];
    assert s[..n + 1][..n] == rest && t == rest + [Merge(lower, upper)] && s == rest + [lower] + [upper];
    MergeReads(rest, lower, upper, b, CollectedFee, a);
  }

  lemma {:induction false} CommitSeq(s: seq<Layer>, b: Base, a: Addr, sn: nat)
    requires Alive(s, a)
    ensures Alive(Commit(s, sn), a) && ReadSeq(Commit(s, sn), b, a) == ReadSeq(s, b, a)
    decreases |s|
  {
    if |s| >= 2 && |s| >= sn {
      var t := WithTop(s[..|s| - 1], Merge(s[|s| - 2], s[|s| - 1]));
      MergeSeq(s, b, a, t);
      CommitSeq(t, b, a, sn);
    }
  }

  lemma CountSeq(s: seq<Layer>, b: Base, from: Addr, a: Addr, t: seq<Layer>)
    requires s != [] && Alive(s, a) && t == AddSeq(CacheSeq(s, b, from), b, from)
    ensures t != [] && Alive(t, a) && ReadSeq(t, b, a) == ReadSeq(s, b, a) + if from == a then 1 else 0
  {
    var r := CacheSeq(s, b, from);
    CacheSeqPure(s, b, from);
    AddSeqReads(r, b, from, a);
    assert Top(r).dead == Top(s).dead;
  }

  lemma AliveSnapshot(s: seq<Layer>, b: Base, a: Addr)
    requires Alive(s, a)
    ensures Alive(Snapshot(s), a) && ReadSeq(Snapshot(s), b, a) == ReadSeq(s, b, a)
  {
    SnapshotReads(s, b);
  }

  predicate Sends(tx: Tx, a: Addr) { tx.from == Some(a) }

  /** One transaction that executes: if it is of this sender it is the next one, and then the sequence grows by one. */
  lemma StepSeq(s: seq<Layer>, b: Base, body: Body, i: nat, a: Addr, u: seq<Layer>)
    requires i < |body.txs| && Framed(body.txs[i]) && Spares(body.txs[i], b, a) && Alive(s, a)
    requires ExecTx(s, b, body, i) == ExecStep.Next(u)
    ensures Alive(u, a) && ReadSeq(u, b, a) == ReadSeq(s, b, a) + if Sends(body.txs[i], a) then 1 else 0
    ensures Sends(body.txs[i], a) ==> body.txs[i].seqno == ReadSeq(s, b, a) + 1
  {
    var tx, s1 := body.txs[i], Snapshot(s);
    AliveSnapshot(s, b, a);
    ValidateOver(tx, s1);
    var v := tx.validate(s1).stack;
    var _ := tx.execute(s1, i);
    var w := if tx.from.Some? then AddSeq(CacheSeq(v, b, tx.from.value), b, tx.from.value) else v;
    if tx.from.Some? { CountSeq(v, b, tx.from.value, a, w); }
    CommitSeq(tx.execute(w, i).stack, b, a, |s1|);
  }

  /** How many of the transactions `a` has sent. */
  function Sent(txs: seq<Tx>, a: Addr): nat {
    if txs == [] then 0 else Sent(txs[..|txs| - 1], a) + if Sends(txs[|txs| - 1], a) then 1 else 0
  }

  lemma SentNext(txs: seq<Tx>, a: Addr, n: nat)
    requires n < |txs|
    ensures Sent(txs[..n + 1], a) == Sent(txs[..n], a) + if Sends(txs[n], a) then 1 else 0
  {
    assert txs[..n + 1][..n] == txs[..n];
  }

  lemma GrowsCarry(s: seq<Layer>, b: Base, body: Body, a: Addr, inv: (seq<Layer>, nat) -> bool)
    requires AllFramed(body.txs) && AllSpare(body.txs, b, a)
    requires inv == ((t: seq<Layer>, i: nat) =>
      i <= |body.txs| && Alive(t, a) && ReadSeq(t, b, a) == ReadSeq(s, b, a) + Sent(body.txs[..i], a))
    ensures Carries(b, body, inv)
  {
    forall t, i: nat, u | i < |body.txs| && inv(t, i) && ExecTx(t, b, body, i) == ExecStep.Next(u)
      ensures inv(u, i + 1)
    {
      StepSeq(t, b, body, i, a, u);
      SentNext(body.txs, a, i);
    }
  }

  /** In every block that is executed the sequence of a sender grows by the number of its transactions. */
  lemma SequenceGrows(s: seq<Layer>, b: Base, body: Body, n: nat, a: Addr, r: ExecStep)
    requires n <= |body.txs| && Alive(s, a) && AllFramed(body.txs) && AllSpare(body.txs, b, a)
    requires r == ExecAll(s, b, body, n)
    ensures r.Next? ==> Alive(r.stack, a) && ReadSeq(r.stack, b, a) == ReadSeq(s, b, a) + Sent(body.txs[..n], a)
  {
    var inv := (t: seq<Layer>, i: nat) =>
      i <= |body.txs| && Alive(t, a) && ReadSeq(t, b, a) == ReadSeq(s, b, a) + Sent(body.txs[..i], a);
    GrowsCarry(s, b, body, a, inv);
    ExecCarries(s, b, body, n, inv);
  }

  /** And each of its transactions that is executed carries the sequence after those of the state and of its
      transactions before: no transaction is executed twice. */
  lemma SequencesFollow(s: seq<Layer>, b: Base, body: Body, a: Addr, i: nat, q: ExecStep, u: ExecStep)
    requires i < |body.txs| && Alive(s, a) && AllFramed(body.txs) && AllSpare(body.txs, b, a)
    requires q == ExecAll(s, b, body, i) && u == ExecAll(s, b, body, i + 1) && u.Next? && Sends(body.txs[i], a)
    ensures body.txs[i].seqno == ReadSeq(s, b, a) + 1 + Sent(body.txs[..i], a)
  {
    ReachedBefore(s, b, body, i, q, u);
    SequenceGrows(s, b, body, i, a, q);
    StepSeq(q.stack, b, body, i, a, u.stack);
  }

  // ---- what is refused ----

  /** The stack on which a transaction is executed: validated, and with the sequence of its sender counted. */
  function Prepared(s: seq<Layer>, b: Base, tx: Tx): seq<Layer> {
    var v := tx.validate(Snapshot(s)).stack;
    if tx.from.Some? && v != [] then AddSeq(CacheSeq(v, b, tx.from.value), b, tx.from.value) else v
  }

  /** A transaction may stand in a block: it is known and valid, it is the next of its sender, if it has none it must
      succeed, and the generator must still have its account after it. */
  predicate Acceptable(s: seq<Layer>, b: Base, tx: Tx, i: nat, generator: Addr) {
    var v, e := tx.validate(Snapshot(s)), tx.execute(Prepared(s, b, tx), i);
    && tx.known && v.ok
    && (tx.from.Some? ==> tx.seqno == ReadSeq(v.stack, b, tx.from.value) + 1)
    && (tx.from.None? ==> e.ok)
    && HasAccount(e.stack, b, generator)
  }

  /** A maker adds exactly these, and records for one with a sender whether it succeeded. */
  lemma AddsIff(c: Creator, b: Base, tx: Tx, i: nat)
    requires Framed(tx) && i == |c.body.txs|
    ensures AddTx(c, b, tx).Added? <==> Acceptable(c.stack, b, tx, i, c.body.generator)
    ensures AddTx(c, b, tx).Added? ==>
      AddTx(c, b, tx).creator.body.results == c.body.results +
        [if tx.from.Some? && tx.execute(Prepared(c.stack, b, tx), i).ok then 1 else 0]
  {
    ValidateOver(tx, Snapshot(c.stack));
  }

  /** Transaction `i` may stand in a block, and the block records what it gives. */
  predicate Fits(s: seq<Layer>, b: Base, body: Body, i: nat)
    requires i < |body.txs|
  {
    var tx := body.txs[i];
    && Acceptable(s, b, tx, i, body.generator)
    && (tx.from.Some? ==>
          i < |body.results| && body.results[i] == if tx.execute(Prepared(s, b, tx), i).ok then 1 else 0)
  }

  /** A transaction of a block executes if and only if it fits. */
  lemma ExecutesIff(s: seq<Layer>, b: Base, body: Body, i: nat, tx: Tx)
    requires i < |body.txs| && tx == body.txs[i] && Framed(tx)
    ensures ExecTx(s, b, body, i).Next? <==> Fits(s, b, body, i)
  {
    ValidateOver(tx, Snapshot(s));
  }

  /** The first `n` transactions fit, each on the state that the ones before have led to. */
  predicate AllFit(s: seq<Layer>, b: Base, body: Body, n: nat)
    requires n <= |body.txs|
  {
    n == 0 || (AllFit(s, b, body, n - 1) && Reaches(s, b, body, n - 1) &&
               Fits(ExecAll(s, b, body, n - 1).stack, b, body, n - 1))
  }

  lemma FitsNext(s: seq<Layer>, b: Base, body: Body, n: nat, q: ExecStep)
    requires n < |body.txs| && AllFramed(body.txs) && q == ExecAll(s, b, body, n)
    ensures ExecAll(s, b, body, n + 1).Next? <==> q.Next? && Fits(q.stack, b, body, n)
  {
    if q.Next? { ExecutesIff(q.stack, b, body, n, body.txs[n]); }
  }

  lemma {:induction false} FitsAll(s: seq<Layer>, b: Base, body: Body, n: nat)
    requires n <= |body.txs| && AllFramed(body.txs)
    ensures ExecAll(s, b, body, n).Next? <==> AllFit(s, b, body, n)
    decreases n
  {
    if n > 0 {
      FitsAll(s, b, body, n - 1);
      FitsNext(s, b, body, n - 1, ExecAll(s, b, body, n - 1));
    }
  }

  /** A transaction that leaves as many layers as it found. */
  ghost predicate Balanced(tx: Tx) {
    forall s: seq<Layer>, i: nat {:trigger tx.execute(s, i)} ::
      |tx.validate(s).stack| == |s| && |tx.execute(s, i).stack| == |s|
  }

  lemma CommitHas(s: seq<Layer>, b: Base, t: seq<Layer>, a: Addr)
    requires s != [] && |t| == |s| + 1 && t[..|s|] == s && HasAccount(s, b, a) && HasAccount(t, b, a)
    ensures HasAccount(Commit(t, |s| + 1), b, a)
  {
    var n := |s| - 1;
    var rest, lower, upper := s[..n], s[n], t[n + 1];
    var u := WithTop(t[..n + 1], Merge(t[n], t[n + 1]));
    assert t[n] == t[..|s|][n] == lower && t[..n + 1] == s && u == rest + [Merge(lower, upper)];
    assert t == rest + [lower] + [upper];
    MergeReads(rest, lower, upper, b, CollectedFee, a);
    assert Commit(t, |s| + 1) == Commit(u, |s| + 1) == u;
  }

  /** No transaction of an executed block takes the account of its generator away. */
  lemma GeneratorStays(s: seq<Layer>, b: Base, body: Body, i: nat, u: seq<Layer>)
    requires s != [] && i < |body.txs| && Framed(body.txs[i]) && Balanced(body.txs[i])
    requires HasAccount(s, b, body.generator) && ExecTx(s, b, body, i) == ExecStep.Next(u)
    ensures HasAccount(u, b, body.generator)
  {
    var tx, s1 := body.txs[i], Snapshot(s);
    ValidateOver(tx, s1);
    var v := tx.validate(s1).stack;
    var _ := tx.execute(s1, i);
    var w := Prepared(s, b, tx);
    if tx.from.Some? {
      SeqOver(v, b, tx.from.value);
      OverTrans(s1, v, w);
    }
    ExecuteOver(tx, s1, w, i);
    assert s1[..|s|] == s;
    CommitHas(s, b, tx.execute(w, i).stack, body.generator);
  }
}
