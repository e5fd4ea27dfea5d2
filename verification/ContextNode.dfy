/** The context that transactions are executed on, as it works: reads fill the top layer, snapshots push layers,
    commits copy a layer into the one below. */
module ContextNode {
  import opened Options
  import opened Overlay

  class Context {
    const base: Base
    var stack: seq<Layer>

    constructor (base: Base)
      ensures this.base == base && stack == [NewLayer()]
    {
      this.base, stack := base, [NewLayer()];
    }

    /** Looks for a key layer by layer from the one below the top. */
    method FindData(k: Key) returns (v: Option<Data>)
      requires stack != []
      ensures v == ReadData(stack[..|stack| - 1], base, k)
    {
      var i := |stack| - 1;
      while i > 0
        invariant 0 <= i < |stack| && ReadData(stack[..i], base, k) == ReadData(stack[..|stack| - 1], base, k)
      {
        i := i - 1;
        assert stack[..i + 1][..i] == stack[..i];
        if k in stack[i].gone { return None; }
        if k in stack[i].data { return Some(stack[i].data[k]); }
      }
      v := base.data(k);
    }

    /** The value of a key, a copy of which the top layer keeps. */
    method AccountData(k: Key) returns (v: Option<Data>)
      requires stack != []
      modifies this
      ensures v == ReadData(old(stack), base, k) && SameReads(old(stack), stack, base)
      ensures stack == CacheData(old(stack), base, k)
    {
      CacheDataPure(stack, base, k);
      var top := stack[|stack| - 1];
      if k in top.gone { return None; }
      if k in top.data {
        assert top.data[k := top.data[k]] == top.data;
        assert WithTop(stack, top) == stack;
        return Some(top.data[k]);
      }
      v := FindData(k);
      if v.Some? {
        stack := WithTop(stack, top.(data := top.data[k := v.value]));
      }
    }

    /** The key reads as it was set, and all else as before. */
    method SetAccountData(k: Key, v: Option<Data>)
      requires stack != []
      modifies this
      ensures forall j :: ReadData(stack, base, j) == if j == k then v else ReadData(old(stack), base, j)
      ensures forall a :: ReadAccount(stack, base, a) == ReadAccount(old(stack), base, a)
      ensures forall a :: ReadSeq(stack, base, a) == ReadSeq(old(stack), base, a)
      ensures stack == SetData(old(stack), k, v)
    {
      var top := stack[|stack| - 1];
      if v.None? {
        top := top.(data := top.data - {k}, gone := top.gone + {k});
      } else {
        top := top.(gone := top.gone - {k}, data := top.data[k := v.value]);
      }
      stack := WithTop(stack, top);
    }

    method FindSeq(a: Addr) returns (n: nat)
      requires stack != []
      ensures n == ReadSeq(stack[..|stack| - 1], base, a)
    {
      var i := |stack| - 1;
      while i > 0
        invariant 0 <= i < |stack| && ReadSeq(stack[..i], base, a) == ReadSeq(stack[..|stack| - 1], base, a)
      {
        i := i - 1;
        assert stack[..i + 1][..i] == stack[..i];
        if a in stack[i].dead { return 0; }
        if a in stack[i].seqs { return stack[i].seqs[a]; }
      }
      n := base.seqno(a);
    }

    method Seq(a: Addr) returns (n: nat)
      requires stack != []
      modifies this
      ensures n == ReadSeq(old(stack), base, a) && SameReads(old(stack), stack, base)
      ensures stack == CacheSeq(old(stack), base, a)
    {
      CacheSeqPure(stack, base, a);
      var top := stack[|stack| - 1];
      if a in top.dead { return 0; }
      if a in top.seqs {
        assert top.seqs[a := top.seqs[a]] == top.seqs;
        assert WithTop(stack, top) == stack;
        return top.seqs[a];
      }
      n := FindSeq(a);
      if n > 0 { stack := WithTop(stack, top.(seqs := top.seqs[a := n])); }
    }

    /** Copies the layers from the top down to the given snapshot into the ones below them. */
    method CommitTo(sn: nat)
      requires sn >= 2
      modifies this
      ensures stack == Commit(old(stack), sn)
    {
      while |stack| >= sn
        invariant Commit(stack, sn) == Commit(old(stack), sn)
        decreases |stack|
      {
        var upper := stack[|stack| - 1];
        stack := stack[..|stack| - 1];
        var lower := stack[|stack| - 1];
        stack := WithTop(stack, Merge(lower, upper));
      }
    }
  }
}
