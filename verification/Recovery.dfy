/** The block log and the state store together. A block goes to the log first and then, in one atomic
    update, to the state; on start-up the blocks that are only in the log are connected again. */
module Recovery {
  import opened Options

  datatype Block = Block(height: nat, body: nat)

  /** Execution of a block on a state, which may refuse it. */
  datatype Chain<!S> = Chain(genesis: S, apply: (S, Block) -> Option<S>)

  /** What is on the disk: the block log, and height and state of the other store. */
  datatype Disk<S> = Disk(log: seq<Block>, height: nat, state: S)

  /** The first half of storing a block; a log that has the height already ignores the block. */
  function Append<S>(d: Disk<S>, b: Block): Disk<S> {
    if b.height == |d.log| + 1 then d.(log := d.log + [b]) else d
  }

  /** The second half. */
  function Update<S>(d: Disk<S>, b: Block, s: S): Disk<S> {
    d.(height := b.height, state := s)
  }

  function Executed<S>(c: Chain<S>, d: Disk<S>, b: Block): Option<S> {
    if b.height != d.height + 1 then None else c.apply(d.state, b)
  }

  function Connect<S>(c: Chain<S>, d: Disk<S>, b: Block): Option<Disk<S>> {
    var s := Executed(c, d, b);
    if s.None? then None else Some(Update(Append(d, b), b, s.value))
  }

  /** Connecting, in order, up to `n` blocks of the log above the height of the state. */
  function Replay<S>(c: Chain<S>, d: Disk<S>, n: nat): Option<Disk<S>>
    decreases n
  {
    if n == 0 || d.height >= |d.log| then Some(d)
    else
      var e := Connect(c, d, d.log[d.height]);
      if e.None? then None else Replay(c, e.value, n - 1)
  }

  /** The state after executing `bs` from the genesis state: the reference for everything below. */
  function Result<S>(c: Chain<S>, bs: seq<Block>): Option<S> {
    if bs == [] then Some(c.genesis)
    else
      var s := Result(c, bs[..|bs| - 1]);
      if s.None? || bs[|bs| - 1].height != |bs| then None else c.apply(s.value, bs[|bs| - 1])
  }

  /** The log is a chain that executes, and the state is that of some prefix of it. */
  ghost predicate Sound<S>(c: Chain<S>, d: Disk<S>) {
    && d.height <= |d.log|
    && Result(c, d.log).Some?
    && Result(c, d.log[..d.height]) == Some(d.state)
  }

  lemma {:induction false} ResultPrefix<S>(c: Chain<S>, bs: seq<Block>, i: nat)
    requires i <= |bs| && Result(c, bs).Some?
    ensures Result(c, bs[..i]).Some?
    ensures i < |bs| ==> bs[i].height == i + 1 && Result(c, bs[..i + 1]) == c.apply(Result(c, bs[..i]).value, bs[i])
  {
    assert bs[..|bs|] == bs;
    if i < |bs| {
      var front := bs[..|bs| - 1];
      if i < |front| {
        ResultPrefix(c, front, i);
        assert front[..i] == bs[..i] && front[..i + 1] == bs[..i + 1];
      } else {
        assert bs[..i] == front && bs[..i + 1] == bs;
      }
    }
  }

  /** Connecting the next block of the log moves the state one block on and nothing else. */
  lemma ReplayStep<S>(c: Chain<S>, d: Disk<S>)
    requires Sound(c, d) && d.height < |d.log|
    ensures var e := Connect(c, d, d.log[d.height]);
      e.Some? && Sound(c, e.value) && e.value.log == d.log && e.value.height == d.height + 1
  {
    ResultPrefix(c, d.log, d.height);
    ResultPrefix(c, d.log, d.height + 1);
  }

  /** Replaying any number of blocks never fails and keeps the log. */
  lemma {:induction false} ReplayKeeps<S>(c: Chain<S>, d: Disk<S>, n: nat)
    requires Sound(c, d)
    ensures var e := Replay(c, d, n);
      && e.Some? && Sound(c, e.value) && e.value.log == d.log
      && e.value.height == if d.height + n <= |d.log| then d.height + n else |d.log|
    decreases n
  {
    if n > 0 && d.height < |d.log| {
      ReplayStep(c, d);
      ReplayKeeps(c, Connect(c, d, d.log[d.height]).value, n - 1);
    }
  }

  /** Replaying all of it gives exactly the state of the whole log. */
  lemma ReplayRestores<S>(c: Chain<S>, d: Disk<S>, n: nat)
    requires Sound(c, d) && n >= |d.log|
    ensures Replay(c, d, n) == Some(Disk(d.log, |d.log|, Result(c, d.log).value))
  {
    ReplayKeeps(c, d, n);
    assert d.log[..|d.log|] == d.log;
  }

  // ---- runs with crashes ----

  datatype Node<S> = Node(disk: Disk<S>, up: bool)

  /** `Crash(b, appended)` stops a node while it stores `b`, before the state was updated: the log may have
      got the block or not. `CrashInStart(n)` stops it after replaying `n` blocks. */
  datatype Event = Store(b: Block) | Crash(b: Block, appended: bool) | Stop | CrashInStart(n: nat) | Start

  function Next<S>(c: Chain<S>, x: Node<S>, e: Event): Node<S> {
    match e
    case Store(b) =>
      if !x.up then x
      else
        var d := Connect(c, x.disk, b);
        if d.None? then x else x.(disk := d.value)
    case Crash(b, appended) =>
      if !x.up then x
      else if Executed(c, x.disk, b).None? || !appended then x.(up := false)
      else Node(Append(x.disk, b), false)
    case Stop => x.(up := false)
    case CrashInStart(n) =>
      if x.up then x
      else
        var d := Replay(c, x.disk, n);
        if d.None? then x else x.(disk := d.value)
    case Start =>
      if x.up then x
      else
        var d := Replay(c, x.disk, |x.disk.log|);
        if d.None? then x else Node(d.value, true)
  }

  function After<S>(c: Chain<S>, x: Node<S>, es: seq<Event>): Node<S> {
    if es == [] then x else Next(c, After(c, x, es[..|es| - 1]), es[|es| - 1])
  }

  function Fresh<S>(c: Chain<S>): Node<S> { Node(Disk([], 0, c.genesis), true) }

  /** A running node has replayed its whole log. */
  ghost predicate Good<S>(c: Chain<S>, x: Node<S>) {
    Sound(c, x.disk) && (x.up ==> x.disk.height == |x.disk.log|)
  }

  lemma AppendSound<S>(c: Chain<S>, d: Disk<S>, b: Block)
    requires Sound(c, d) && d.height == |d.log| && Executed(c, d, b).Some?
    ensures Append(d, b).log == d.log + [b] && Sound(c, Append(d, b))
    ensures Result(c, d.log + [b]) == Executed(c, d, b)
  {
    assert d.log[..d.height] == d.log;
    assert (d.log + [b])[..|d.log|] == d.log;
  }

  /** Every event keeps a node good and never loses a block of the log. */
  lemma NextGood<S>(c: Chain<S>, x: Node<S>, e: Event)
    requires Good(c, x)
    ensures Good(c, Next(c, x, e)) && x.disk.log <= Next(c, x, e).disk.log
  {
    var d := x.disk;
    match e
    case Store(b) =>
      if x.up && Executed(c, d, b).Some? {
        AppendSound(c, d, b);
        var all := d.log + [b];
        assert all[..|all|] == all;
      }
    case Crash(b, appended) =>
      if x.up && Executed(c, d, b).Some? { AppendSound(c, d, b); }
    case Stop =>
    case CrashInStart(n) => ReplayKeeps(c, d, n);
    case Start => ReplayKeeps(c, d, |d.log|);
  }

  lemma {:induction false} RunGood<S>(c: Chain<S>, es: seq<Event>)
    ensures Good(c, After(c, Fresh(c), es))
  {
    if es != [] {
      RunGood(c, es[..|es| - 1]);
      NextGood(c, After(c, Fresh(c), es[..|es| - 1]), es[|es| - 1]);
    }
  }

  /** The log only grows during a run. */
  lemma {:induction false} RunGrows<S>(c: Chain<S>, es: seq<Event>, i: nat)
    requires i <= |es|
    ensures After(c, Fresh(c), es[..i]).disk.log <= After(c, Fresh(c), es).disk.log
  {
    if i < |es| {
      var front := es[..|es| - 1];
      RunGrows(c, front, i);
      assert front[..i] == es[..i];
      RunGood(c, front);
      NextGood(c, After(c, Fresh(c), front), es[|es| - 1]);
    } else {
      assert es[..i] == es;
    }
  }

  function Stores(bs: seq<Block>): (es: seq<Event>)
    ensures |es| == |bs|
  {
    if bs == [] then [] else Stores(bs[..|bs| - 1]) + [Store(bs[|bs| - 1])]
  }

  /** A run without crashes that stores a chain ends with its log and state. */
  lemma {:induction false} StoresResult<S>(c: Chain<S>, bs: seq<Block>)
    requires Result(c, bs).Some?
    ensures After(c, Fresh(c), Stores(bs)) == Node(Disk(bs, |bs|, Result(c, bs).value), true)
  {
    if bs != [] {
      var front := bs[..|bs| - 1];
      ResultPrefix(c, bs, |front|);
      StoresResult(c, front);
      assert Stores(bs)[..|Stores(bs)| - 1] == Stores(front);
      assert bs == front + [bs[|bs| - 1]];
    }
  }

  /** Whatever crashes a run has had, a node that is up is exactly the node of a run without crashes that
      stored the blocks of its log. */
  lemma RecoversCrashFree<S>(c: Chain<S>, es: seq<Event>)
    requires After(c, Fresh(c), es).up
    ensures After(c, Fresh(c), es) == After(c, Fresh(c), Stores(After(c, Fresh(c), es).disk.log))
  {
    RunGood(c, es);
    var x := After(c, Fresh(c), es);
    assert x.disk.log[..|x.disk.log|] == x.disk.log;
    StoresResult(c, x.disk.log);
  }

  /** A node that is down comes up, with the state of its whole log. */
  lemma StartsUp<S>(c: Chain<S>, es: seq<Event>)
    ensures var x, y := After(c, Fresh(c), es), After(c, Fresh(c), es + [Start]);
      y.up && y.disk.log == x.disk.log && y.disk.height == |x.disk.log|
      && Result(c, x.disk.log) == Some(y.disk.state)
  {
    RunGood(c, es);
    var d := After(c, Fresh(c), es).disk;
    assert (es + [Start])[..|es|] == es;
    assert d.log[..|d.log|] == d.log;
    ReplayRestores(c, d, |d.log|);
  }

  /** A block whose storing returned stays at its height through every later crash and restart. */
  lemma StoredStays<S>(c: Chain<S>, es: seq<Event>, i: nat, b: Block)
    requires i < |es| && es[i] == Store(b)
    requires var x := After(c, Fresh(c), es[..i]);
      x.up && Connect(c, x.disk, b).Some?
    ensures var log := After(c, Fresh(c), es).disk.log;
      b.height > 0 && b.height <= |log| && log[b.height - 1] == b
  {
    var x := After(c, Fresh(c), es[..i]);
    RunGood(c, es[..i]);
    AppendSound(c, x.disk, b);
    assert es[..i + 1][..i] == es[..i];
    RunGrows(c, es, i + 1);
  }

  /** Connecting a new block, or the next one of the log, keeps the log and the state in line. */
  lemma ConnectSound<S>(c: Chain<S>, d: Disk<S>, b: Block)
    requires Sound(c, d) && Connect(c, d, b).Some? && (d.height == |d.log| || b == d.log[d.height])
    ensures var e := Connect(c, d, b).value;
      Sound(c, e) && e.height == d.height + 1 && e.log == if d.height == |d.log| then d.log + [b] else d.log
  {
    if d.height == |d.log| {
      AppendSound(c, d, b);
      assert (d.log + [b])[..|d.log| + 1] == d.log + [b];
    } else {
      ResultPrefix(c, d.log, d.height);
    }
  }

  // ---- the store as it works ----

  class NodeStore<S> {
    var log: seq<Block>
    var height: nat
    var state: S

    ghost function OnDisk(): Disk<S>
      reads this
    {
      Disk(log, height, state)
    }

    constructor (d: Disk<S>)
      ensures OnDisk() == d
    {
      log, height, state := d.log, d.height, d.state;
    }

    /** To the log, unless that has the height already, and then to the state: the log only grows, and is never behind
        the state. */
    method StoreBlock(b: Block, s: S)
      modifies this
      ensures old(log) <= log && (b.height <= |old(log)| + 1 ==> height <= |log|)
      ensures OnDisk() == Update(Append(old(OnDisk()), b), b, s)
    {
      if b.height == |log| + 1 {
        log := log + [b];
      }
      height, state := b.height, s;
    }

    /** Executes a block on the state and stores it: with a log and a state in line, they stay in line, for a new block
        as for one that is replayed. */
    method ConnectBlock(c: Chain<S>, b: Block) returns (ok: bool)
      modifies this
      ensures ok <==> Connect(c, old(OnDisk()), b).Some?
      ensures OnDisk() == if ok then Connect(c, old(OnDisk()), b).value else old(OnDisk())
      ensures ok && Sound(c, old(OnDisk())) && (old(height) == |old(log)| || b == old(log)[old(height)]) ==>
        && Sound(c, OnDisk()) && height == old(height) + 1
        && log == if old(height) == |old(log)| then old(log) + [b] else old(log)
    {
      ghost var d := OnDisk();
      if Sound(c, d) && Connect(c, d, b).Some? && (d.height == |d.log| || b == d.log[d.height]) {
        ConnectSound(c, d, b);
      }
      if b.height != height + 1 { return false; }
      var s := c.apply(state, b);
      if s.None? { return false; }
      StoreBlock(b, s.value);
      ok := true;
    }

    /** Connects the blocks of the log above the height of the state until the log has no more. */
    method IterBlockAfterContext(c: Chain<S>) returns (ok: bool)
      modifies this
      ensures log == old(log)
      ensures ok <==> Replay(c, old(OnDisk()), |log|).Some?
      ensures ok ==> Some(OnDisk()) == Replay(c, old(OnDisk()), |log|)
    {
      var h := height + 1;
      ghost var n: nat := |log|;
      while h <= |log|
        invariant log == old(log) && h == height + 1
        invariant n + h > |old(log)|
        invariant Replay(c, OnDisk(), n) == Replay(c, old(OnDisk()), |log|)
        decreases |log| - h
      {
        ok := ConnectBlock(c, log[h - 1]);
        if !ok { return; }
        h, n := h + 1, n - 1;
      }
      ok := true;
    }
  }
}
