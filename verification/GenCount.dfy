/** Counting the blocks that each formulator has made since rewards were last paid. */
module GenCount {
  import opened Sums
  import opened StakeIndex

  datatype State = State(index: Index, paid: nat)

  datatype Block = Block(state: State, flushed: bool, counts: map<Addr, nat>)

  /** The block of height `h` by `generator`: one more for it, and all counts are taken if rewards are due. */
  function AfterBlock(s: State, h: nat, generator: Addr, interval: nat): Block {
    var x := Add(s.index, generator, 1);
    if h >= s.paid + interval then Block(State(Empty(), h), true, x.amounts)
    else Block(s.(index := x), false, map[])
  }

  /** After block `h` the counts add up to the blocks since the last payment. */
  ghost predicate InStep(s: State, h: nat) {
    Exact(s.index) && s.paid <= h && Sum(s.index.amounts) == h - s.paid
  }

  lemma AddSums(x: Index, a: Addr, v: nat)
    requires v > 0
    ensures Sum(Add(x, a, v).amounts) == Sum(x.amounts) + v
  {
    SumUpdate(x.amounts, a, Amount(x, a) + v);
  }

  /** What is paid out are the counts of exactly the blocks since the last payment. */
  lemma BlockKeeps(s: State, h: nat, generator: Addr, interval: nat)
    requires InStep(s, h)
    ensures var b := AfterBlock(s, h + 1, generator, interval);
      && InStep(b.state, h + 1)
      && (b.flushed ==> Sum(b.counts) == h + 1 - s.paid && b.state.paid == h + 1)
  {
    AddSums(s.index, generator, 1);
    AddExactIff(s.index, generator, 1);
  }

  /** The state after blocks by `gens`, the first of height 1; the pay interval may be another at each block. */
  function AfterAll(gens: seq<Addr>, intervals: seq<nat>): State
    requires |gens| == |intervals|
  {
    if gens == [] then State(Empty(), 0)
    else
      var n := |gens| - 1;
      AfterBlock(AfterAll(gens[..n], intervals[..n]), n + 1, gens[n], intervals[n]).state
  }

  /** Over every run the counts add up to the blocks since the last payment. */
  lemma {:induction false} AllInStep(gens: seq<Addr>, intervals: seq<nat>)
    requires |gens| == |intervals|
    ensures InStep(AfterAll(gens, intervals), |gens|)
  {
    if gens != [] {
      var n := |gens| - 1;
      AllInStep(gens[..n], intervals[..n]);
      BlockKeeps(AfterAll(gens[..n], intervals[..n]), n, gens[n], intervals[n]);
    }
  }

  // ---- whose blocks ----

  /** How many of the blocks `a` has made. */
  function Times(gens: seq<Addr>, a: Addr): nat {
    if gens == [] then 0 else Times(gens[..|gens| - 1], a) + if gens[|gens| - 1] == a then 1 else 0
  }

  lemma OneMoreBlock(gens: seq<Addr>, from: nat, a: Addr)
    requires from < |gens|
    ensures Times(gens[from..], a) ==
      Times(gens[..|gens| - 1][from..], a) + if gens[|gens| - 1] == a then 1 else 0
  {
    var since := gens[from..];
    assert since[..|since| - 1] == gens[..|gens| - 1][from..];
  }

  lemma CountGrows(x: Index, g: Addr, a: Addr)
    ensures Get(Add(x, g, 1).amounts, a) == Get(x.amounts, a) + if g == a then 1 else 0
  {
  }

  /** Over every run each formulator has as its count the number of the blocks that it has made since the last
      payment. */
  lemma {:induction false} CountsAre(gens: seq<Addr>, intervals: seq<nat>, a: Addr)
    requires |gens| == |intervals|
    ensures var s := AfterAll(gens, intervals);
      s.paid <= |gens| && Amount(s.index, a) == Times(gens[s.paid..], a)
  {
    if gens != [] {
      var n := |gens| - 1;
      var s := AfterAll(gens[..n], intervals[..n]);
      CountsAre(gens[..n], intervals[..n], a);
      CountGrows(s.index, gens[n], a);
      OneMoreBlock(gens, s.paid, a);
    }
  }

  /** The block after any run pays if and only if the interval has passed, and then for each formulator exactly the
      blocks that it has made since the last payment, this one included. */
  lemma PaysEach(gens: seq<Addr>, intervals: seq<nat>, g: Addr, interval: nat, a: Addr, s: State, b: Block)
    requires |gens| == |intervals| && s == AfterAll(gens, intervals)
    requires b == AfterBlock(s, |gens| + 1, g, interval)
    ensures s.paid <= |gens| && (b.flushed <==> |gens| + 1 - s.paid >= interval)
    ensures b.flushed ==> Get(b.counts, a) == Times((gens + [g])[s.paid..], a) && b.state.paid == |gens| + 1
    ensures !b.flushed ==> b.counts == map[] && b.state.paid == s.paid
  {
    CountsAre(gens, intervals, a);
    CountGrows(s.index, g, a);
    assert (gens + [g])[..|gens|] == gens;
    OneMoreBlock(gens + [g], s.paid, a);
  }

  /** Goes through the index, takes every count and leaves nothing behind. */
  method FlushGenCountMap(x: Index) returns (counts: map<Addr, nat>, left: Index)
    requires Exact(x)
    ensures counts == x.amounts && left == Empty()
  {
    counts := map[];
    var amounts, number, reverse := x.amounts, x.number, x.reverse;
    for i := 0 to x.count
      invariant forall a :: a in counts <==> a in x.number && x.number[a] < i
      invariant forall a :: a in counts ==> counts[a] == x.amounts[a]
      invariant forall a :: a in number <==> a in x.number && x.number[a] >= i
      invariant forall a :: a in amounts <==> a in x.number && x.number[a] >= i
      invariant forall j :: j in reverse <==> j in x.reverse && j >= i
    {
      var a := x.reverse[i];
      counts := counts[a := Get(x.amounts, a)];
      amounts, number, reverse := amounts - {a}, number - {a}, reverse - {i};
    }
    assert amounts == map[] && number == map[] && reverse == map[];
    left := Index(amounts, number, reverse, 0);
  }
}
