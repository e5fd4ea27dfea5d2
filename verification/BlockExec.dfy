/** Making a block and executing it. */
module BlockExec {
  import opened Options
  import opened Overlay

  datatype Outcome = Outcome(stack: seq<Layer>, ok: bool)

  /** A transaction, by what it does to the stack. `from` is the sender of an account transaction. */
  datatype Tx = Tx(
    known: bool,
    from: Option<Addr>,
    seqno: nat,
    validate: seq<Layer> -> Outcome,
    execute: (seq<Layer>, nat) -> Outcome)

  /** What hooks see of a block. */
  datatype Body = Body(generator: Addr, txs: seq<Tx>, results: seq<nat>)

  datatype Hooks = Hooks(before: seq<seq<Layer> -> Outcome>, after: seq<(seq<Layer>, Body) -> Outcome>)

  datatype Result = Ok(stack: seq<Layer>) | Failed | Dirty

  function HasAccount(s: seq<Layer>, b: Base, a: Addr): bool { ReadAccount(s, b, a).Found? }

  function RunBefore(s: seq<Layer>, hs: seq<seq<Layer> -> Outcome>): Result {
    if hs == [] then Ok(s)
    else
      var r := RunBefore(s, hs[..|hs| - 1]);
      if !r.Ok? then r
      else
        var o := hs[|hs| - 1](r.stack);
        if !o.ok then Failed else if |o.stack| > 1 then Dirty else Ok(o.stack)
  }

  function RunAfter(s: seq<Layer>, body: Body, hs: seq<(seq<Layer>, Body) -> Outcome>): Result {
    if hs == [] then Ok(s)
    else
      var r := RunAfter(s, body, hs[..|hs| - 1]);
      if !r.Ok? then r
      else
        var o := hs[|hs| - 1](r.stack, body);
        if !o.ok then Failed else if |o.stack| > 1 then Dirty else Ok(o.stack)
  }

  // ---- making a block ----

  datatype Creator = Creator(stack: seq<Layer>, body: Body)

  /** `Refused` returns an error. `Dropped` returns none, though the transaction is not in the block. */
  datatype AddResult = Added(creator: Creator) | Refused(creator: Creator) | Dropped(creator: Creator)

  /** The end of adding a transaction, once it has been executed on the stack. */
  function Finish(c: Creator, b: Base, s: seq<Layer>, sn: nat, tx: Tx, result: nat): AddResult {
    if !HasAccount(s, b, c.body.generator) then Refused(c.(stack := Revert(s, sn)))
    else
      Added(Creator(Commit(s, sn), c.body.(txs := c.body.txs + [tx], results := c.body.results + [result])))
  }

  function AddTx(c: Creator, b: Base, tx: Tx): AddResult {
    if !tx.known then Refused(c)
    else
      var s := Snapshot(c.stack);
      var sn := |s|;
      var v := tx.validate(s);
      if !v.ok then Refused(c.(stack := Revert(v.stack, sn)))
      else if tx.from.Some? && v.stack != [] then
        var t := CacheSeq(v.stack, b, tx.from.value);
        if tx.seqno != ReadSeq(v.stack, b, tx.from.value) + 1 then Dropped(c.(stack := Revert(t, sn)))
        else
          var e := tx.execute(AddSeq(t, b, tx.from.value), |c.body.txs|);
          Finish(c, b, e.stack, sn, tx, if e.ok then 1 else 0)
      else
        var e := tx.execute(v.stack, |c.body.txs|);
        if !e.ok then Refused(c.(stack := Revert(e.stack, sn))) else Finish(c, b, e.stack, sn, tx, 0)
  }

  function AddAll(c: Creator, b: Base, txs: seq<Tx>): Creator {
    if txs == [] then c else AddTx(AddAll(c, b, txs[..|txs| - 1]), b, txs[|txs| - 1]).creator
  }

  /** A block made from the transactions offered, with the state it leads to. */
  datatype Made = Made(body: Body, stack: seq<Layer>) | NotMade

  function Create(s: seq<Layer>, b: Base, h: Hooks, generator: Addr, offered: seq<Tx>): Made {
    var init := RunBefore(s, h.before);
    if !init.Ok? then NotMade
    else
      var c := AddAll(Creator(init.stack, Body(generator, [], [])), b, offered);
      if |c.stack| > 1 then NotMade
      else
        var end := RunAfter(c.stack, c.body, h.after);
        if !end.Ok? then NotMade else Made(c.body, end.stack)
  }

  // ---- executing a block ----

  /** `Stopped` ends the execution of the block without an error. */
  datatype ExecStep = Next(stack: seq<Layer>) | Error | Stopped(stack: seq<Layer>)

  function ExecFinish(s: seq<Layer>, b: Base, sn: nat, generator: Addr): ExecStep {
    if !HasAccount(s, b, generator) then Error else Next(Commit(s, sn))
  }

  function ExecTx(s0: seq<Layer>, b: Base, body: Body, i: nat): ExecStep
    requires i < |body.txs|
  {
    var tx := body.txs[i];
    if !tx.known then Error
    else
      var s := Snapshot(s0);
      var sn := |s|;
      var v := tx.validate(s);
      if !v.ok then Error
      else if tx.from.Some? && v.stack != [] then
        var t := CacheSeq(v.stack, b, tx.from.value);
        if tx.seqno != ReadSeq(v.stack, b, tx.from.value) + 1 then Stopped(Revert(t, sn))
        else
          var e := tx.execute(AddSeq(t, b, tx.from.value), i);
          if i >= |body.results| || (if e.ok then 1 else 0) != body.results[i] then Error
          else ExecFinish(e.stack, b, sn, body.generator)
      else
        var e := tx.execute(v.stack, i);
        if !e.ok then Error else ExecFinish(e.stack, b, sn, body.generator)
  }

  function ExecAll(s: seq<Layer>, b: Base, body: Body, n: nat): ExecStep
    requires n <= |body.txs|
  {
    if n == 0 then Next(s)
    else
      var r := ExecAll(s, b, body, n - 1);
      if r.Next? then ExecTx(r.stack, b, body, n - 1) else r
  }

  function Execute(s: seq<Layer>, b: Base, h: Hooks, body: Body): Result {
    var init := RunBefore(s, h.before);
    if !init.Ok? then init
    else
      var r := ExecAll(init.stack, b, body, |body.txs|);
      match r
      case Error => Failed
      case Stopped(t) => Ok(t)
      case Next(t) => if |t| > 1 then Dirty else RunAfter(t, body, h.after)
  }

  // ---- they agree ----

  /** What a transaction does stays above the layer it was given. */
  ghost predicate Framed(tx: Tx) {
    forall s: seq<Layer>, i: nat :: s != [] ==>
      var v, e := tx.validate(s), tx.execute(s, i);
      && |v.stack| >= |s| && v.stack[..|s| - 1] == s[..|s| - 1]
      && |e.stack| >= |s| && e.stack[..|s| - 1] == s[..|s| - 1]
  }

  /** `t` is `s` but for its top layer and what is above it. */
  predicate Over(s: seq<Layer>, t: seq<Layer>) {
    s != [] && |t| >= |s| && t[..|s| - 1] == s[..|s| - 1]
  }

  lemma OverTrans(s: seq<Layer>, t: seq<Layer>, u: seq<Layer>)
    requires Over(s, t) && Over(t, u)
    ensures Over(s, u)
  {
    assert t[..|s| - 1] == t[..|t| - 1][..|s| - 1] && u[..|s| - 1] == u[..|t| - 1][..|s| - 1];
  }

  lemma RevertOver(s: seq<Layer>, t: seq<Layer>)
    requires Over(Snapshot(s), t)
    ensures Revert(t, |Snapshot(s)|) == s
  {
    assert Snapshot(s)[..|s|] == s;
  }

  /** The stack on which an account transaction is executed. */
  lemma SeqOver(s: seq<Layer>, b: Base, a: Addr)
    requires s != []
    ensures Over(s, CacheSeq(s, b, a)) && Over(s, AddSeq(CacheSeq(s, b, a), b, a))
  {
    OverTrans(s, CacheSeq(s, b, a), AddSeq(CacheSeq(s, b, a), b, a));
  }

  lemma ValidateOver(tx: Tx, s: seq<Layer>)
    requires Framed(tx) && s != []
    ensures Over(s, tx.validate(s).stack)
  {
    var _ := tx.execute(s, 0);
  }

  lemma ExecuteOver(tx: Tx, s: seq<Layer>, t: seq<Layer>, i: nat)
    requires Framed(tx) && Over(s, t)
    ensures Over(s, tx.execute(t, i).stack)
  {
    var _ := tx.validate(t);
    assert Over(t, tx.execute(t, i).stack);
    OverTrans(s, t, tx.execute(t, i).stack);
  }

  /** A transaction that is not added leaves the creator as it was. */
  lemma NotAddedKeeps(c: Creator, b: Base, tx: Tx)
    requires Framed(tx) && !AddTx(c, b, tx).Added?
    ensures AddTx(c, b, tx).creator == c
  {
    if tx.known {
      var s := Snapshot(c.stack);
      ValidateOver(tx, s);
      var v, i := tx.validate(s), |c.body.txs|;
      RevertOver(c.stack, v.stack);
      if v.ok {
        if tx.from.Some? {
          var t := CacheSeq(v.stack, b, tx.from.value);
          SeqOver(v.stack, b, tx.from.value);
          OverTrans(s, v.stack, t);
          OverTrans(s, v.stack, AddSeq(t, b, tx.from.value));
          RevertOver(c.stack, t);
          ExecuteOver(tx, s, AddSeq(t, b, tx.from.value), i);
          RevertOver(c.stack, tx.execute(AddSeq(t, b, tx.from.value), i).stack);
        } else {
          ExecuteOver(tx, s, v.stack, i);
          RevertOver(c.stack, tx.execute(v.stack, i).stack);
        }
      }
    }
  }

  /** `whole` starts with the transactions and results of `part`. */
  ghost predicate Starts(part: Body, whole: Body) {
    && part.generator == whole.generator && |part.txs| == |part.results|
    && part.txs <= whole.txs && part.results <= whole.results
  }

  lemma AddedBody(c: Creator, b: Base, tx: Tx, e: Creator)
    requires AddTx(c, b, tx) == Added(e)
    ensures e.body.txs == c.body.txs + [tx] && |e.body.results| == |c.body.results| + 1
    ensures c.body.results <= e.body.results && e.body.generator == c.body.generator
  {
  }

  /** A transaction that was added is executed alike, with the result that the block records. */
  lemma AddedExecutes(c: Creator, b: Base, tx: Tx, body: Body, e: Creator, i: nat)
    requires |c.body.txs| == |c.body.results| == i && AddTx(c, b, tx) == Added(e) && Starts(e.body, body)
    ensures i < |body.txs| && ExecTx(c.stack, b, body, i) == ExecStep.Next(e.stack)
  {
    AddedBody(c, b, tx, e);
    assert body.txs[i] == e.body.txs[i] == tx;
    assert body.results[i] == e.body.results[i];
  }

  lemma ExecStepOn(s: seq<Layer>, b: Base, body: Body, n: nat, t: seq<Layer>, u: seq<Layer>)
    requires n < |body.txs| && ExecAll(s, b, body, n) == ExecStep.Next(t) && ExecTx(t, b, body, n) == ExecStep.Next(u)
    ensures ExecAll(s, b, body, n + 1) == ExecStep.Next(u)
  {
  }

  lemma StartsBefore(d: Creator, b: Base, tx: Tx, body: Body, e: Creator)
    requires AddTx(d, b, tx) == Added(e) && |d.body.txs| == |d.body.results| && Starts(e.body, body)
    ensures Starts(d.body, body) && |e.body.txs| == |d.body.txs| + 1 <= |body.txs|
  {
    AddedBody(d, b, tx, e);
  }

  /** What is added after a part of the block that executes, executes too. */
  lemma AddStep(s: seq<Layer>, d: Creator, b: Base, tx: Tx, body: Body, e: Creator, n: nat)
    requires AddTx(d, b, tx) == Added(e) && |d.body.txs| == |d.body.results| == n && Starts(e.body, body)
    requires n <= |body.txs| && ExecAll(s, b, body, n) == ExecStep.Next(d.stack)
    ensures n < |body.txs| && ExecAll(s, b, body, n + 1) == ExecStep.Next(e.stack)
  {
    AddedExecutes(d, b, tx, body, e, n);
    ExecStepOn(s, b, body, n, d.stack, e.stack);
  }

  lemma {:induction false} AddAllExecutes(c: Creator, b: Base, offered: seq<Tx>, body: Body, e: Creator)
    requires c.body.txs == [] && c.body.results == [] && e == AddAll(c, b, offered)
    requires forall i :: 0 <= i < |offered| ==> Framed(offered[i])
    requires Starts(e.body, body)
    ensures |e.body.txs| <= |body.txs| && ExecAll(c.stack, b, body, |e.body.txs|) == ExecStep.Next(e.stack)
  {
    if offered != [] {
      var front, tx := offered[..|offered| - 1], offered[|offered| - 1];
      var d := AddAll(c, b, front);
      SizesMatch(c, b, front);
      if AddTx(d, b, tx).Added? {
        StartsBefore(d, b, tx, body, e);
        AddAllExecutes(c, b, front, body, d);
        AddStep(c.stack, d, b, tx, body, e, |d.body.txs|);
      } else {
        NotAddedKeeps(d, b, tx);
        AddAllExecutes(c, b, front, body, d);
      }
    }
  }

  lemma {:induction false} SizesMatch(c: Creator, b: Base, offered: seq<Tx>)
    requires |c.body.txs| == |c.body.results|
    ensures |AddAll(c, b, offered).body.txs| == |AddAll(c, b, offered).body.results|
  {
    if offered != [] {
      SizesMatch(c, b, offered[..|offered| - 1]);
    }
  }

  /** Every block that is made is executed without error, and the execution ends in the very state that its maker
      computed, and so with the same context hash. */
  lemma MadeExecutes(s: seq<Layer>, b: Base, h: Hooks, generator: Addr, offered: seq<Tx>)
    requires forall i :: 0 <= i < |offered| ==> Framed(offered[i])
    requires Create(s, b, h, generator, offered).Made?
    ensures var m := Create(s, b, h, generator, offered);
      Execute(s, b, h, m.body) == Ok(m.stack)
  {
    var c := Creator(RunBefore(s, h.before).stack, Body(generator, [], []));
    var d := AddAll(c, b, offered);
    SizesMatch(c, b, offered);
    AddAllExecutes(c, b, offered, d.body, d);
  }

  // ---- blocks that are accepted half executed ----

  /** An account transaction that is known and valid on the stack it meets, but not the next of its sender. */
  predicate OutOfSequence(s0: seq<Layer>, b: Base, tx: Tx) {
    var v := tx.validate(Snapshot(s0));
    tx.known && v.ok && v.stack != [] && tx.from.Some? && tx.seqno != ReadSeq(v.stack, b, tx.from.value) + 1
  }

  /** Transaction `i` is reached: everything before it has been executed. */
  predicate Reaches(s: seq<Layer>, b: Base, body: Body, i: nat)
    requires i <= |body.txs|
  {
    ExecAll(s, b, body, i).Next?
  }

  /** Transaction `i` is reached and out of sequence. */
  predicate StopsAt(s: seq<Layer>, b: Base, body: Body, i: nat) {
    i < |body.txs| && Reaches(s, b, body, i) && OutOfSequence(ExecAll(s, b, body, i).stack, b, body.txs[i])
  }

  /** Execution ends there, with the context as the transactions before have left it. */
  lemma StopsThere(s0: seq<Layer>, b: Base, body: Body, i: nat)
    requires i < |body.txs| && Framed(body.txs[i])
    ensures ExecTx(s0, b, body, i).Stopped? <==> OutOfSequence(s0, b, body.txs[i])
    ensures ExecTx(s0, b, body, i).Stopped? ==> ExecTx(s0, b, body, i).stack == s0
  {
    var tx, s := body.txs[i], Snapshot(s0);
    ValidateOver(tx, s);
    var v := tx.validate(s);
    if tx.from.Some? {
      SeqOver(v.stack, b, tx.from.value);
      OverTrans(s, v.stack, CacheSeq(v.stack, b, tx.from.value));
      RevertOver(s0, CacheSeq(v.stack, b, tx.from.value));
    }
  }

  lemma EndsEarly(s: seq<Layer>, b: Base, body: Body, i: nat, r: ExecStep)
    requires StopsAt(s, b, body, i) && Framed(body.txs[i]) && r == ExecAll(s, b, body, i)
    ensures ExecAll(s, b, body, |body.txs|) == Stopped(r.stack)
  {
    StopsThere(r.stack, b, body, i);
    StoppedStays(s, b, body, i + 1, |body.txs|);
  }

  lemma {:induction false} StoppedSomewhere(s: seq<Layer>, b: Base, body: Body, n: nat) returns (i: nat)
    requires n <= |body.txs| && forall i :: 0 <= i < |body.txs| ==> Framed(body.txs[i])
    requires ExecAll(s, b, body, n).Stopped?
    ensures StopsAt(s, b, body, i)
  {
    var r := ExecAll(s, b, body, n - 1);
    if r.Next? {
      StopsThere(r.stack, b, body, n - 1);
      i := n - 1;
    } else {
      i := StoppedSomewhere(s, b, body, n - 1);
    }
  }

  /** What one expects of an accepted block: all its transactions have been executed, and then the hooks. */
  ghost predicate AcceptedWhole(s: seq<Layer>, b: Base, h: Hooks, body: Body, init: seq<Layer>) {
    Execute(s, b, h, body).Ok? ==>
      var r := ExecAll(init, b, body, |body.txs|);
      r.Next? && Execute(s, b, h, body) == RunAfter(r.stack, body, h.after)
  }

  /** It holds if and only if execution reaches no transaction out of sequence. A block that reaches one is accepted,
      whatever follows, with the state that the transactions before it have led to. */
  lemma WholeIff(s: seq<Layer>, b: Base, h: Hooks, body: Body, init: seq<Layer>)
    requires RunBefore(s, h.before) == Ok(init) && forall i :: 0 <= i < |body.txs| ==> Framed(body.txs[i])
    ensures AcceptedWhole(s, b, h, body, init) <==> forall i :: 0 <= i < |body.txs| ==> !StopsAt(init, b, body, i)
    ensures forall i :: 0 <= i < |body.txs| && StopsAt(init, b, body, i) ==>
      Execute(s, b, h, body) == Ok(ExecAll(init, b, body, i).stack)
  {
    forall i | 0 <= i < |body.txs| && StopsAt(init, b, body, i)
      ensures ExecAll(init, b, body, |body.txs|) == Stopped(ExecAll(init, b, body, i).stack)
    {
      EndsEarly(init, b, body, i, ExecAll(init, b, body, i));
    }
    if ExecAll(init, b, body, |body.txs|).Stopped? {
      var i := StoppedSomewhere(init, b, body, |body.txs|);
    }
  }

  function Idle(known: bool, a: Addr, n: nat): Tx {
    Tx(known, Some(a), n, s => Outcome(s, true), (s, i) => Outcome(s, true))
  }

  /** Such a block, on any state: its first transaction skips a sequence, its second is of no known kind, it records
      no results, and the hook after it would fail. */
  lemma HalfExecuted(b: Base, a: Addr, s: seq<Layer>, body: Body)
    requires s != [] && body == Body(a, [Idle(true, a, ReadSeq(Snapshot(s), b, a) + 2), Idle(false, a, 0)], [])
    ensures Execute(s, b, Hooks([], [(t, _) => Outcome(t, false)]), body) == Ok(s)
  {
    var h := Hooks([], [(t, _) => Outcome(t, false)]);
    assert ExecAll(s, b, body, 0) == ExecStep.Next(s);
    assert StopsAt(s, b, body, 0);
    WholeIff(s, b, h, body, s);
  }

  lemma {:induction false} StoppedStays(s: seq<Layer>, b: Base, body: Body, i: nat, n: nat)
    requires i <= n <= |body.txs| && !ExecAll(s, b, body, i).Next?
    ensures ExecAll(s, b, body, n) == ExecAll(s, b, body, i)
    decreases n
  {
    if n > i { StoppedStays(s, b, body, i, n - 1); }
  }
}
