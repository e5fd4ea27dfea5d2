/** The layered state that transactions work on: a stack of layers over the state of the chain. Each layer has
    values and tombstones; reads go down to the first layer that knows the key, and the top layer keeps what it
    has read. */
module Overlay {
  import opened Options

  type Addr = nat

  /** The keys of account data and process data: balances and fees, the stakes at a formulator with their index, the
      stakes on their way back, and all others. */
  datatype Key =
    | Balance(a: Addr) | CollectedFee
    | StakeAmount(h: Addr, a: Addr) | StakeNumber(h: Addr, a: Addr)
    | StakeReverse(h: Addr, i: nat) | StakeCount(h: Addr)
    | Unstaking(height: nat, a: Addr, h: Addr)
    | Other(id: nat)

  /** Data are non-empty byte strings, here by the number they stand for. */
  type Data = nat

  /** A formulator account keeps the sum of its stakes. */
  datatype Acc = Formulator(staked: nat) | Simple(id: nat)

  datatype Layer = Layer(
    data: map<Key, Data>,
    gone: set<Key>,
    accounts: map<Addr, Acc>,
    dead: set<Addr>,
    seqs: map<Addr, nat>)

  function NewLayer(): Layer { Layer(map[], {}, map[], {}, map[]) }

  /** The state under the stack. */
  datatype Base = Base(data: Key -> Option<Data>, account: Addr -> Option<Acc>, seqno: Addr -> nat)

  // ---- what a stack means ----

  /** The top is the last layer. */
  function ReadData(s: seq<Layer>, b: Base, k: Key): Option<Data> {
    if s == [] then b.data(k)
    else
      var top := s[|s| - 1];
      if k in top.gone then None
      else if k in top.data then Some(top.data[k])
      else ReadData(s[..|s| - 1], b, k)
  }

  datatype Found = Found(acc: Acc) | NotExist | Deleted

  function ReadAccount(s: seq<Layer>, b: Base, a: Addr): Found {
    if s == [] then match b.account(a) case Some(x) => Found(x) case None => NotExist
    else
      var top := s[|s| - 1];
      if a in top.dead then Deleted
      else if a in top.accounts then Found(top.accounts[a])
      else ReadAccount(s[..|s| - 1], b, a)
  }

  function ReadSeq(s: seq<Layer>, b: Base, a: Addr): nat {
    if s == [] then b.seqno(a)
    else
      var top := s[|s| - 1];
      if a in top.dead then 0
      else if a in top.seqs then top.seqs[a]
      else ReadSeq(s[..|s| - 1], b, a)
  }

  /** All reads of two stacks give the same. */
  ghost predicate SameReads(s: seq<Layer>, t: seq<Layer>, b: Base) {
    && (forall k :: ReadData(s, b, k) == ReadData(t, b, k))
    && (forall a :: ReadAccount(s, b, a) == ReadAccount(t, b, a))
    && (forall a :: ReadSeq(s, b, a) == ReadSeq(t, b, a))
  }

  // ---- operations ----

  function Top(s: seq<Layer>): Layer
    requires s != []
  {
    s[|s| - 1]
  }

  function WithTop(s: seq<Layer>, l: Layer): (t: seq<Layer>)
    requires s != []
    ensures |t| == |s| && t[..|s| - 1] == s[..|s| - 1]
  {
    s[..|s| - 1] + [l]
  }

  /** A read of data leaves a copy in the top layer. */
  function CacheData(s: seq<Layer>, b: Base, k: Key): seq<Layer>
    requires s != []
  {
    var v := ReadData(s, b, k);
    if v.None? then s else WithTop(s, Top(s).(data := Top(s).data[k := v.value]))
  }

  function CacheAccount(s: seq<Layer>, b: Base, a: Addr): seq<Layer>
    requires s != []
  {
    var v := ReadAccount(s, b, a);
    if !v.Found? then s else WithTop(s, Top(s).(accounts := Top(s).accounts[a := v.acc]))
  }

  /** Only a sequence above zero is kept. */
  function CacheSeq(s: seq<Layer>, b: Base, a: Addr): seq<Layer>
    requires s != []
  {
    var n := ReadSeq(s, b, a);
    if n == 0 || a in Top(s).dead then s else WithTop(s, Top(s).(seqs := Top(s).seqs[a := n]))
  }

  /** Setting nothing deletes. */
  function SetData(s: seq<Layer>, k: Key, v: Option<Data>): seq<Layer>
    requires s != []
  {
    var top := Top(s);
    WithTop(s, if v.None? then top.(data := top.data - {k}, gone := top.gone + {k})
               else top.(data := top.data[k := v.value], gone := top.gone - {k}))
  }

  function AddSeq(s: seq<Layer>, b: Base, a: Addr): seq<Layer>
    requires s != []
  {
    if a in Top(s).dead then s else WithTop(s, Top(s).(seqs := Top(s).seqs[a := ReadSeq(s, b, a) + 1]))
  }

  function PutAccount(s: seq<Layer>, a: Addr, x: Acc): seq<Layer>
    requires s != []
  {
    WithTop(s, Top(s).(accounts := Top(s).accounts[a := x]))
  }

  function KillAccount(s: seq<Layer>, a: Addr): seq<Layer>
    requires s != []
  {
    WithTop(s, Top(s).(accounts := Top(s).accounts - {a}, dead := Top(s).dead + {a}))
  }

  function Snapshot(s: seq<Layer>): seq<Layer> { s + [NewLayer()] }

  /** Snapshot numbers count from the bottom: `sn` is the height of the stack after the snapshot. */
  function Revert(s: seq<Layer>, sn: nat): seq<Layer> {
    if 0 < sn <= |s| then s[..sn - 1] else s
  }

  /** One layer goes into the one below: values over values, tombstones over both; tombstones below stay. */
  function Merge(lower: Layer, upper: Layer): Layer {
    Layer((lower.data + upper.data) - upper.gone, lower.gone + upper.gone,
          (lower.accounts + upper.accounts) - upper.dead, lower.dead + upper.dead,
          lower.seqs + upper.seqs)
  }

  function Commit(s: seq<Layer>, sn: nat): seq<Layer>
    decreases |s|
  {
    if |s| < 2 || |s| < sn then s
    else Commit(WithTop(s[..|s| - 1], Merge(s[|s| - 2], s[|s| - 1])), sn)
  }

  // ---- reads are pure ----

  lemma CacheDataPure(s: seq<Layer>, b: Base, k: Key)
    requires s != []
    ensures SameReads(s, CacheData(s, b, k), b)
  {
    assert WithTop(s, Top(s)) == s;
  }

  lemma CacheAccountPure(s: seq<Layer>, b: Base, a: Addr)
    requires s != []
    ensures SameReads(s, CacheAccount(s, b, a), b)
  {
  }

  lemma CacheSeqPure(s: seq<Layer>, b: Base, a: Addr)
    requires s != []
    ensures SameReads(s, CacheSeq(s, b, a), b)
  {
  }

  // ---- what the writes mean ----

  /** A key reads as it was set, and every other key as before. */
  lemma SetDataReads(s: seq<Layer>, b: Base, k: Key, v: Option<Data>, j: Key)
    requires s != []
    ensures ReadData(SetData(s, k, v), b, j) == if j == k then v else ReadData(s, b, j)
  {
  }

  lemma KillReads(s: seq<Layer>, b: Base, a: Addr, j: Addr)
    requires s != []
    ensures ReadAccount(KillAccount(s, a), b, j) == if j == a then Deleted else ReadAccount(s, b, j)
    ensures ReadSeq(KillAccount(s, a), b, j) == if j == a then 0 else ReadSeq(s, b, j)
  {
  }

  lemma AddSeqReads(s: seq<Layer>, b: Base, a: Addr, j: Addr)
    requires s != []
    ensures ReadSeq(AddSeq(s, b, a), b, j) == if j == a && a !in Top(s).dead then ReadSeq(s, b, j) + 1
      else ReadSeq(s, b, j)
  {
  }

  lemma SnapshotReads(s: seq<Layer>, b: Base)
    ensures SameReads(s, Snapshot(s), b)
  {
    assert Snapshot(s)[..|s|] == s;
  }

  // ---- committing ----

  /** What a commit of `upper` into `lower` loses: values set above over a tombstone below. */
  predicate LosesData(lower: Layer, upper: Layer, k: Key) { k in upper.data && k !in upper.gone && k in lower.gone }

  predicate LosesAccount(lower: Layer, upper: Layer,
                         a: Addr) { a in upper.accounts && a !in upper.dead && a in lower.dead }

  predicate LosesSeq(lower: Layer, upper: Layer, a: Addr) {
    a in upper.seqs && upper.seqs[a] != 0 && a !in upper.dead && a in lower.dead
  }

  /** After one layer has been committed every read gives what it gave before, if and only if the key was not set
      above a tombstone. */
  lemma MergeReads(rest: seq<Layer>, lower: Layer, upper: Layer, b: Base, k: Key, a: Addr)
    ensures ReadData(rest + [Merge(lower, upper)], b, k) == ReadData(rest + [lower] + [upper], b, k)
       <==> !LosesData(lower, upper, k)
    ensures ReadAccount(rest + [Merge(lower, upper)], b, a) == ReadAccount(rest + [lower] + [upper], b, a)
       <==> !LosesAccount(lower, upper, a)
    ensures ReadSeq(rest + [Merge(lower, upper)], b, a) == ReadSeq(rest + [lower] + [upper], b, a)
       <==> !LosesSeq(lower, upper, a)
  {
    assert (rest + [Merge(lower, upper)])[..|rest|] == rest;
    assert (rest + [lower] + [upper])[..|rest| + 1] == rest + [lower];
    assert (rest + [lower])[..|rest|] == rest;
  }

  /** What a key reads as then: nothing if the lower layer has deleted it, and as before otherwise. */
  lemma MergeGives(rest: seq<Layer>, lower: Layer, upper: Layer, b: Base, k: Key, a: Addr)
    ensures ReadData(rest + [Merge(lower, upper)], b, k) ==
      if k in lower.gone then None else ReadData(rest + [lower] + [upper], b, k)
    ensures ReadAccount(rest + [Merge(lower, upper)], b, a) ==
      if a in lower.dead then Deleted else ReadAccount(rest + [lower] + [upper], b, a)
  {
    MergeReads(rest, lower, upper, b, k, a);
    var m := Merge(lower, upper);
    assert (rest + [m])[..|rest|] == rest && (rest + [m])[|rest|] == m;
  }

  /** A copy that a read has left in the upper layer makes no difference to what the commit leaves. */
  lemma CopyCommits(rest: seq<Layer>, lower: Layer, upper: Layer, b: Base, k: Key, s: seq<Layer>, copy: Layer, j: Key)
    requires s == rest + [lower] + [upper] && copy == Top(CacheData(s, b, k))
    ensures ReadData(rest + [Merge(lower, copy)], b, j) == ReadData(rest + [Merge(lower, upper)], b, j)
  {
    MergeGives(rest, lower, upper, b, j, 0);
    MergeGives(rest, lower, copy, b, j, 0);
    assert s[..|s| - 1] == rest + [lower] && CacheData(s, b, k) == rest + [lower] + [copy];
    CacheDataPure(s, b, k);
  }

  /** An account that is put into a layer is found there, if and only if that layer has not deleted it before. */
  lemma PutAccountReads(s: seq<Layer>, b: Base, a: Addr, x: Acc, j: Addr)
    requires s != []
    ensures ReadAccount(PutAccount(s, a, x), b, a) == Found(x) <==> a !in Top(s).dead
    ensures j != a ==> ReadAccount(PutAccount(s, a, x), b, j) == ReadAccount(s, b, j)
  {
  }

  // ---- runs of operations ----

  datatype Op =
    | GetData(k: Key) | GetAccount(a: Addr) | GetSeq(a: Addr)
    | Set(k: Key, v: Option<Data>) | Inc(a: Addr) | PutAcc(a: Addr, x: Acc) | Kill(a: Addr)
    | Snap | Back(sn: nat) | Done(sn: nat)

  function Apply(s: seq<Layer>, b: Base, op: Op): seq<Layer>
    requires s != []
  {
    match op
    case GetData(k) => CacheData(s, b, k)
    case GetAccount(a) => CacheAccount(s, b, a)
    case GetSeq(a) => CacheSeq(s, b, a)
    case Set(k, v) => SetData(s, k, v)
    case Inc(a) => AddSeq(s, b, a)
    case PutAcc(a, x) => PutAccount(s, a, x)
    case Kill(a) => KillAccount(s, a)
    case Snap => Snapshot(s)
    case Back(sn) => Revert(s, sn)
    case Done(sn) => Commit(s, sn)
  }

  /** The operation stays above the lowest `n` layers. */
  predicate Above(op: Op, n: nat) {
    (op.Back? || op.Done? ==> op.sn >= n + 2)
  }

  lemma {:induction false} CommitAbove(s: seq<Layer>, sn: nat, n: nat)
    requires n < |s| && sn >= n + 2
    ensures n < |Commit(s, sn)| && Commit(s, sn)[..n] == s[..n]
    decreases |s|
  {
    if |s| >= 2 && |s| >= sn {
      var t := WithTop(s[..|s| - 1], Merge(s[|s| - 2], s[|s| - 1]));
      assert t[..n] == s[..n];
      CommitAbove(t, sn, n);
    }
  }

  lemma ApplyAbove(s: seq<Layer>, b: Base, op: Op, n: nat)
    requires n < |s| && Above(op, n)
    ensures n < |Apply(s, b, op)| && Apply(s, b, op)[..n] == s[..n]
  {
    if op.Done? {
      CommitAbove(s, op.sn, n);
    } else if !op.Snap? && !op.Back? {
      var t := Apply(s, b, op);
      assert |t| == |s| && t[..|s| - 1] == s[..|s| - 1];
      assert t[..n] == t[..|s| - 1][..n] && s[..n] == s[..|s| - 1][..n];
    }
  }

  function Run(s: seq<Layer>, b: Base, ops: seq<Op>, n: nat): (t: seq<Layer>)
    requires n < |s| && forall i :: 0 <= i < |ops| ==> Above(ops[i], n)
    ensures n < |t| && t[..n] == s[..n]
  {
    if ops == [] then s
    else
      var t := Run(s, b, ops[..|ops| - 1], n);
      ApplyAbove(t, b, ops[|ops| - 1], n);
      Apply(t, b, ops[|ops| - 1])
  }

  /** Whatever was done since a snapshot, reverting to it gives back the very same stack, and so every read. */
  lemma RevertRestores(s: seq<Layer>, b: Base, ops: seq<Op>)
    requires forall i :: 0 <= i < |ops| ==> Above(ops[i], |s|)
    ensures Revert(Run(Snapshot(s), b, ops, |s|), |s| + 1) == s
  {
    assert Snapshot(s)[..|s|] == s;
  }

  // ---- the stack refines a stack of plain states ----

  /** A plain state: every key has its value. */
  datatype View = View(data: Key -> Option<Data>, account: Addr -> Found, seqno: Addr -> nat)

  ghost predicate Shows(s: seq<Layer>, b: Base, v: View) {
    && (forall k :: ReadData(s, b, k) == v.data(k))
    && (forall a :: ReadAccount(s, b, a) == v.account(a))
    && (forall a :: ReadSeq(s, b, a) == v.seqno(a))
  }

  /** Each layer, with those under it, shows the plain state of its height. */
  ghost predicate Refines(s: seq<Layer>, b: Base, vs: seq<View>) {
    |vs| == |s| && forall i :: 0 <= i < |s| ==> Shows(s[..i + 1], b, vs[i])
  }

  function Override<K(==), T>(f: K -> T, a: K, x: T): K -> T {
    (j: K) => if j == a then x else f(j)
  }

  function Killed(v: View, a: Addr): View {
    v.(account := Override<Addr, Found>(v.account, a, Deleted), seqno := Override<Addr, nat>(v.seqno, a, 0))
  }

  /** Operations on plain states: reads do nothing, a snapshot copies, a commit keeps the upper copy. */
  function Plain(vs: seq<View>, op: Op): seq<View>
    requires vs != []
  {
    var n := |vs| - 1;
    var v := vs[n];
    match op
    case Set(k, x) => vs[..n] + [v.(data := Override<Key, Option<Data>>(v.data, k, x))]
    case Inc(a) => vs[..n] + [v.(seqno := Override<Addr, nat>(v.seqno, a, v.seqno(a) + 1))]
    case PutAcc(a, x) => vs[..n] + [v.(account := Override<Addr, Found>(v.account, a, Found(x)))]
    case Kill(a) => vs[..n] + [Killed(v, a)]
    case Snap => vs + [v]
    case Back(sn) => if 0 < sn <= |vs| then vs[..sn - 1] else vs
    case Done(sn) => PlainCommit(vs, sn)
    case _ => vs
  }

  function PlainCommit(vs: seq<View>, sn: nat): seq<View>
    decreases |vs|
  {
    if |vs| < 2 || |vs| < sn then vs else PlainCommit(vs[..|vs| - 2] + [vs[|vs| - 1]], sn)
  }

  /** No layer of a commit sets what the one below has deleted. */
  ghost predicate CleanCommit(s: seq<Layer>, sn: nat)
    decreases |s|
  {
    if |s| < 2 || |s| < sn then true
    else
      var lower, upper := s[|s| - 2], s[|s| - 1];
      && (forall k :: !LosesData(lower, upper, k))
      && (forall a :: !LosesAccount(lower, upper, a) && !LosesSeq(lower, upper, a))
      && CleanCommit(WithTop(s[..|s| - 1], Merge(lower, upper)), sn)
  }

  /** What the layers cannot show: writing in a layer to what it has deleted, and committing over a deletion. */
  ghost predicate Clean(s: seq<Layer>, op: Op)
    requires s != []
  {
    match op
    case Inc(a) => a !in Top(s).dead
    case PutAcc(a, _) => a !in Top(s).dead
    case Done(sn) => CleanCommit(s, sn)
    case _ => true
  }

  lemma RefinesTop(s: seq<Layer>, t: seq<Layer>, b: Base, vs: seq<View>, v: View)
    requires Refines(s, b, vs) && s != [] && |t| == |s| && t[..|s| - 1] == s[..|s| - 1] && Shows(t, b, v)
    ensures Refines(t, b, vs[..|s| - 1] + [v])
  {
    var n, us := |s| - 1, vs[..|s| - 1] + [v];
    forall i | 0 <= i < |t| ensures Shows(t[..i + 1], b, us[i]) {
      if i < n {
        assert t[..i + 1] == t[..n][..i + 1] && s[..i + 1] == s[..n][..i + 1];
        assert Shows(s[..i + 1], b, vs[i]);
      } else {
        assert t[..i + 1] == t;
      }
    }
  }

  lemma TopShows(s: seq<Layer>, b: Base, vs: seq<View>)
    requires Refines(s, b, vs) && s != []
    ensures Shows(s, b, vs[|s| - 1]) && vs == vs[..|s| - 1] + [vs[|s| - 1]]
  {
    assert s[..|s| - 1 + 1] == s;
  }

  lemma SameShows(s: seq<Layer>, t: seq<Layer>, b: Base, v: View)
    requires Shows(s, b, v) && SameReads(s, t, b)
    ensures Shows(t, b, v)
  {
  }

  /** Reads change no view. */
  lemma ReadRefines(s: seq<Layer>, b: Base, vs: seq<View>, op: Op)
    requires Refines(s, b, vs) && s != [] && (op.GetData? || op.GetAccount? || op.GetSeq?)
    ensures Refines(Apply(s, b, op), b, vs)
  {
    TopShows(s, b, vs);
    var t := Apply(s, b, op);
    match op {
      case GetData(k) => CacheDataPure(s, b, k);
      case GetAccount(a) => CacheAccountPure(s, b, a);
      case GetSeq(a) => CacheSeqPure(s, b, a);
    }
    SameShows(s, t, b, vs[|s| - 1]);
    RefinesTop(s, t, b, vs, vs[|s| - 1]);
  }

  lemma SetRefines(s: seq<Layer>, b: Base, vs: seq<View>, k: Key, x: Option<Data>)
    requires Refines(s, b, vs) && s != []
    ensures Refines(SetData(s, k, x), b, Plain(vs, Set(k, x)))
  {
    TopShows(s, b, vs);
    var v, t := vs[|s| - 1], SetData(s, k, x);
    forall j ensures ReadData(t, b, j) == Override<Key, Option<Data>>(v.data, k, x)(j) { SetDataReads(s, b, k, x, j); }
    RefinesTop(s, t, b, vs, v.(data := Override<Key, Option<Data>>(v.data, k, x)));
  }

  lemma IncRefines(s: seq<Layer>, b: Base, vs: seq<View>, a: Addr)
    requires Refines(s, b, vs) && s != [] && a !in Top(s).dead
    ensures Refines(AddSeq(s, b, a), b, Plain(vs, Inc(a)))
  {
    TopShows(s, b, vs);
    var v, t := vs[|s| - 1], AddSeq(s, b, a);
    forall j ensures ReadSeq(t, b, j) == Override<Addr, nat>(v.seqno, a, v.seqno(a) + 1)(j) { AddSeqReads(s, b, a, j); }
    RefinesTop(s, t, b, vs, v.(seqno := Override<Addr, nat>(v.seqno, a, v.seqno(a) + 1)));
  }

  lemma PutRefines(s: seq<Layer>, b: Base, vs: seq<View>, a: Addr, x: Acc)
    requires Refines(s, b, vs) && s != [] && a !in Top(s).dead
    ensures Refines(PutAccount(s, a, x), b, Plain(vs, PutAcc(a, x)))
  {
    TopShows(s, b, vs);
    var v, t := vs[|s| - 1], PutAccount(s, a, x);
    forall j ensures ReadAccount(t, b, j) == Override<Addr, Found>(v.account, a, Found(x))(j) {
      PutAccountReads(s, b, a, x, j);
    }
    RefinesTop(s, t, b, vs, v.(account := Override<Addr, Found>(v.account, a, Found(x))));
  }

  lemma KillRefines(s: seq<Layer>, b: Base, vs: seq<View>, a: Addr)
    requires Refines(s, b, vs) && s != []
    ensures Refines(KillAccount(s, a), b, Plain(vs, Kill(a)))
  {
    TopShows(s, b, vs);
    var v, t := vs[|s| - 1], KillAccount(s, a);
    forall j
      ensures ReadAccount(t, b, j) == Override<Addr, Found>(v.account, a, Deleted)(j)
      ensures ReadSeq(t, b, j) == Override<Addr, nat>(v.seqno, a, 0)(j)
    {
      KillReads(s, b, a, j);
    }
    RefinesTop(s, t, b, vs, Killed(v, a));
  }

  lemma SnapRefines(s: seq<Layer>, b: Base, vs: seq<View>)
    requires Refines(s, b, vs) && s != []
    ensures Refines(Snapshot(s), b, vs + [vs[|vs| - 1]])
  {
    TopShows(s, b, vs);
    SnapshotReads(s, b);
    SameShows(s, Snapshot(s), b, vs[|s| - 1]);
    var t, us := Snapshot(s), vs + [vs[|vs| - 1]];
    forall i | 0 <= i < |t| ensures Shows(t[..i + 1], b, us[i]) {
      if i < |s| {
        assert t[..i + 1] == s[..i + 1];
        assert Shows(s[..i + 1], b, vs[i]);
      } else {
        assert t[..i + 1] == t;
      }
    }
  }

  lemma CutRefines(s: seq<Layer>, b: Base, vs: seq<View>, n: nat)
    requires Refines(s, b, vs) && n <= |s|
    ensures Refines(s[..n], b, vs[..n])
  {
    forall i | 0 <= i < n ensures Shows(s[..n][..i + 1], b, vs[..n][i]) {
      assert s[..n][..i + 1] == s[..i + 1];
      assert Shows(s[..i + 1], b, vs[i]);
    }
  }

  lemma {:induction false} CommitRefines(s: seq<Layer>, b: Base, vs: seq<View>, sn: nat)
    requires Refines(s, b, vs) && CleanCommit(s, sn)
    ensures Refines(Commit(s, sn), b, PlainCommit(vs, sn))
    decreases |s|
  {
    if |s| >= 2 && |s| >= sn {
      var n := |s| - 2;
      var lower, upper, rest := s[n], s[n + 1], s[..n];
      var t := WithTop(s[..n + 1], Merge(lower, upper));
      assert s[..n + 1][..n] == rest && t == rest + [Merge(lower, upper)];
      assert s == rest + [lower] + [upper];
      TopShows(s, b, vs);
      forall k ensures ReadData(t, b, k) == ReadData(s, b, k) {
        MergeReads(rest, lower, upper, b, k, 0);
        assert !LosesData(lower, upper, k);
      }
      forall a ensures ReadAccount(t, b, a) == ReadAccount(s, b, a) && ReadSeq(t, b, a) == ReadSeq(s, b, a) {
        MergeReads(rest, lower, upper, b, CollectedFee, a);
        assert !LosesAccount(lower, upper, a) && !LosesSeq(lower, upper, a);
      }
      CutRefines(s, b, vs, n + 1);
      RefinesTop(s[..n + 1], t, b, vs[..n + 1], vs[n + 1]);
      assert vs[..n + 1][..n] == vs[..n];
      CommitRefines(t, b, vs[..n] + [vs[n + 1]], sn);
    }
  }

  /** Every operation, where the layers can show it, does to the reads of all layers what it does to plain states. */
  lemma ApplyRefines(s: seq<Layer>, b: Base, vs: seq<View>, op: Op)
    requires Refines(s, b, vs) && s != [] && Clean(s, op)
    ensures Refines(Apply(s, b, op), b, Plain(vs, op))
  {
    match op
    case Set(k, x) => SetRefines(s, b, vs, k, x);
    case Inc(a) => IncRefines(s, b, vs, a);
    case PutAcc(a, x) => PutRefines(s, b, vs, a, x);
    case Kill(a) => KillRefines(s, b, vs, a);
    case Snap => SnapRefines(s, b, vs);
    case Back(sn) => CutRefines(s, b, vs, if 0 < sn <= |s| then sn - 1 else |s|);
    case Done(sn) => CommitRefines(s, b, vs, sn);
    case _ => ReadRefines(s, b, vs, op);
  }

  function PlainAll(vs: seq<View>, ops: seq<Op>): seq<View> {
    if ops == [] then vs
    else
      var us := PlainAll(vs, ops[..|ops| - 1]);
      if us == [] then us else Plain(us, ops[|ops| - 1])
  }

  /** No operation of the run sets a key above a tombstone or below its own. */
  ghost predicate CleanRun(s: seq<Layer>, b: Base, ops: seq<Op>) {
    s != [] && (forall i :: 0 <= i < |ops| ==> Above(ops[i], 0)) && forall i :: 0 <= i < |ops| ==> CleanAt(s, b, ops, i)
  }

  ghost predicate CleanAt(s: seq<Layer>, b: Base, ops: seq<Op>, i: nat)
    requires s != [] && i < |ops| && forall i :: 0 <= i < |ops| ==> Above(ops[i], 0)
  {
    Clean(Run(s, b, ops[..i], 0), ops[i])
  }

  /** Over every such run, the stack of layers reads as the stack of plain states. */
  lemma {:induction false} RunRefines(s: seq<Layer>, b: Base, vs: seq<View>, ops: seq<Op>)
    requires Refines(s, b, vs) && CleanRun(s, b, ops)
    ensures Refines(Run(s, b, ops, 0), b, PlainAll(vs, ops))
  {
    if ops != [] {
      var n := |ops| - 1;
      var front := ops[..n];
      forall i | 0 <= i < n ensures CleanAt(s, b, front, i) {
        assert CleanAt(s, b, ops, i) && front[..i] == ops[..i];
      }
      RunRefines(s, b, vs, front);
      assert CleanAt(s, b, ops, n);
      ApplyRefines(Run(s, b, front, 0), b, PlainAll(vs, front), ops[n]);
    }
  }

  function BaseView(b: Base): View {
    View(b.data, (a: Addr) => if b.account(a).Some? then Found(b.account(a).value) else NotExist, b.seqno)
  }

  /** A new context reads as the state under it. */
  lemma FreshRefines(b: Base)
    ensures Refines([NewLayer()], b, [BaseView(b)])
  {
    var s, v := [NewLayer()], BaseView(b);
    assert s[..0] == [] && s[..1] == s;
    forall k: Key ensures ReadData(s, b, k) == v.data(k) {
      assert ReadData([], b, k) == v.data(k);
    }
    forall a: Addr ensures ReadAccount(s, b, a) == v.account(a) && ReadSeq(s, b, a) == v.seqno(a) {
      assert ReadAccount([], b, a) == v.account(a) && ReadSeq([], b, a) == v.seqno(a);
    }
    assert Shows(s, b, v);
  }

  /** Two layers as one. */
  lemma CommitTwo(lower: Layer, upper: Layer)
    ensures Commit([lower, upper], 2) == [Merge(lower, upper)]
  {
    var s := [lower, upper];
    assert s[..1] == [lower] && [lower][..0] == [];
    assert WithTop(s[..1], Merge(lower, upper)) == [Merge(lower, upper)];
  }

  lemma DeleteThenSet(k: Key, v: Data, lower: Layer, upper: Layer)
    requires lower == NewLayer().(gone := {k}) && upper == NewLayer().(data := map[k := v])
    ensures SetData(Snapshot(SetData([NewLayer()], k, None)), k, Some(v)) == [lower, upper]
  {
    var l := NewLayer();
    assert l.data - {k} == map[] && l.gone + {k} == {k} && l.gone - {k} == {};
    assert SetData([l], k, None) == [lower];
    assert Snapshot([lower]) == [lower, l] && [lower, l][..1] == [lower];
  }

  /** A value set by one transaction after an earlier one has deleted the key is gone once it is committed. */
  lemma SetAfterDeleteIsLost(b: Base, k: Key, v: Data)
    ensures var s := SetData(Snapshot(SetData([NewLayer()], k, None)), k, Some(v));
      ReadData(s, b, k) == Some(v) && ReadData(Commit(s, 2), b, k) == None
  {
    var lower, upper := NewLayer().(gone := {k}), NewLayer().(data := map[k := v]);
    DeleteThenSet(k, v, lower, upper);
    LostInCommit([lower, upper], lower, upper, b, k);
  }

  lemma LostInCommit(s: seq<Layer>, lower: Layer, upper: Layer, b: Base, k: Key)
    requires s == [lower, upper] && k in lower.gone && k in upper.data && k !in upper.gone
    ensures ReadData(s, b, k) == Some(upper.data[k]) && ReadData(Commit(s, 2), b, k) == None
  {
    CommitTwo(lower, upper);
    TwoLayers(lower, upper, b, k);
  }

  lemma TwoLayers(lower: Layer, upper: Layer, b: Base, k: Key)
    requires k in lower.gone && k in upper.data && k !in upper.gone
    ensures ReadData([lower, upper], b, k) == Some(upper.data[k]) && ReadData([Merge(lower, upper)], b, k) == None
  {
  }
}
