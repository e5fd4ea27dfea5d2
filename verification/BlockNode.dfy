/** Making and executing blocks, as the node does it. */
module BlockNode {
  import opened Options
  import opened Overlay
  import opened BlockExec
  import opened BlockChecks

  datatype AddCode = AddedTx | RefusedTx | DroppedTx

  function Told(code: AddCode, c: Creator): AddResult {
    match code
    case AddedTx => Added(c)
    case RefusedTx => Refused(c)
    case DroppedTx => Dropped(c)
  }

  class BlockCreator {
    var stack: seq<Layer>
    var body: Body

    ghost function State(): Creator
      reads this
    {
      Creator(stack, body)
    }

    constructor (stack: seq<Layer>, generator: Addr)
      ensures State() == Creator(stack, Body(generator, [], []))
    {
      this.stack, body := stack, Body(generator, [], []);
    }

    /** The generator must still be there; then the layer is committed and the transaction is in the block. */
    method Close(b: Base, sn: nat, tx: Tx, result: nat, ghost c: Creator) returns (code: AddCode)
      requires c.body == body && sn > 0
      modifies this
      ensures code != DroppedTx
      ensures Finish(c, b, old(stack), sn, tx, result) == if code == AddedTx then Added(State()) else Refused(State())
    {
      if !HasAccount(stack, b, body.generator) {
        stack := Revert(stack, sn);
        return RefusedTx;
      }
      stack := Commit(stack, sn);
      body := body.(txs := body.txs + [tx], results := body.results + [result]);
      code := AddedTx;
    }

    /** Validates, executes and adds a transaction, or puts the context back: either the creator is as before, or the
        transaction is in the block and executing it there leads to the same state, with the result recorded. */
    method UnsafeAddTx(b: Base, tx: Tx) returns (code: AddCode)
      modifies this
      ensures Framed(tx) && code != AddedTx ==> State() == old(State())
      ensures code == AddedTx && |old(body.txs)| == |old(body.results)| ==>
        && body.txs == old(body.txs) + [tx] && |body.results| == |body.txs|
        && ExecTx(old(stack), b, body, |old(body.txs)|) == ExecStep.Next(stack)
      ensures code == DroppedTx <==> OutOfSequence(old(stack), b, tx)
      ensures AddTx(old(State()), b, tx) == Told(code, State())
    {
      ghost var c := State();
      code := Add(b, tx);
      if code != AddedTx && Framed(tx) { NotAddedKeeps(c, b, tx); }
      if code == AddedTx && |c.body.txs| == |c.body.results| {
        AddedBody(c, b, tx, State());
        AddedExecutes(c, b, tx, body, State(), |c.body.txs|);
      }
    }

    method Add(b: Base, tx: Tx) returns (code: AddCode)
      modifies this
      ensures AddTx(old(State()), b, tx) == Told(code, State())
    {
      if !tx.known { return RefusedTx; }
      ghost var c := State();
      stack := Snapshot(stack);
      var sn := |stack|;
      var v := tx.validate(stack);
      stack := v.stack;
      if !v.ok {
        stack := Revert(stack, sn);
        return RefusedTx;
      }
      var result := 0;
      if tx.from.Some? && stack != [] {
        var last := ReadSeq(stack, b, tx.from.value);
        stack := CacheSeq(stack, b, tx.from.value);
        if tx.seqno != last + 1 {
          stack := Revert(stack, sn);
          return DroppedTx;
        }
        stack := AddSeq(stack, b, tx.from.value);
        var e := tx.execute(stack, |body.txs|);
        stack := e.stack;
        result := if e.ok then 1 else 0;
      } else {
        var e := tx.execute(stack, |body.txs|);
        stack := e.stack;
        if !e.ok {
          stack := Revert(stack, sn);
          return RefusedTx;
        }
      }
      code := Close(b, sn, tx, result, c);
    }
  }

  /** Executes one transaction of a block: it must be known and valid, out of sequence it ends the block, and what it
      gives must be what the block records. */
  method ExecuteOne(s: seq<Layer>, b: Base, body: Body, i: nat) returns (r: ExecStep)
    requires i < |body.txs|
    ensures r == ExecTx(s, b, body, i)
    ensures Framed(body.txs[i]) ==> (r.Stopped? <==> OutOfSequence(s, b, body.txs[i]))
    ensures Framed(body.txs[i]) ==> (r.Next? <==> Fits(s, b, body, i))
  {
    var tx := body.txs[i];
    if Framed(tx) {
      StopsThere(s, b, body, i);
      ExecutesIff(s, b, body, i, tx);
    }
    if !tx.known { return Error; }
    var stack := Snapshot(s);
    var sn := |stack|;
    var v := tx.validate(stack);
    stack := v.stack;
    if !v.ok { return Error; }
    if tx.from.Some? && stack != [] {
      var last := ReadSeq(stack, b, tx.from.value);
      stack := CacheSeq(stack, b, tx.from.value);
      if tx.seqno != last + 1 { return Stopped(Revert(stack, sn)); }
      stack := AddSeq(stack, b, tx.from.value);
      var e := tx.execute(stack, i);
      stack := e.stack;
      var result := if e.ok then 1 else 0;
      if i >= |body.results| || result != body.results[i] { return Error; }
    } else {
      var e := tx.execute(stack, i);
      stack := e.stack;
      if !e.ok { return Error; }
    }
    if !HasAccount(stack, b, body.generator) { return Error; }
    r := ExecStep.Next(Commit(stack, sn));
  }

  /** Executes the transactions of a block one after another. When all are in sequence it succeeds if and only if each
      fits the state that the ones before have led to. */
  method ExecuteTransactions(s: seq<Layer>, b: Base, body: Body) returns (r: ExecStep)
    ensures r == ExecAll(s, b, body, |body.txs|)
    ensures AllFramed(body.txs) ==> (r.Next? <==> AllFit(s, b, body, |body.txs|))
  {
    var stack := s;
    var i := 0;
    while i < |body.txs|
      invariant 0 <= i <= |body.txs| && ExecAll(s, b, body, i) == ExecStep.Next(stack)
    {
      r := ExecuteOne(stack, b, body, i);
      i := i + 1;
      if !r.Next? {
        StoppedStays(s, b, body, i, |body.txs|);
        if AllFramed(body.txs) { FitsAll(s, b, body, |body.txs|); }
        return;
      }
      stack := r.stack;
    }
    r := ExecStep.Next(stack);
    if AllFramed(body.txs) { FitsAll(s, b, body, |body.txs|); }
  }
}
