/** Whose turn it is: a formulator makes its blocks, goes one phase on, and everybody's turn comes. */
module RankRotation {
  import opened RankOrder
  import opened RankUpdate

  // ---- one block ----

  predicate NoLimit(p: Policy) { p.NoPolicy? || p.diff == 0 }

  /** A block that changes no formulator account. */
  predicate NoChanges(i: Input) { i.changes == [] && i.gone == [] }

  /** The rank of a formulator after its turn. */
  function AfterTurn(r: Rank, hash: nat): Rank { r.(phase := r.phase + 1, space := hash) }

  lemma UpdateOfNothing(s: seq<Rank>, p: Policy)
    requires s != [] && NoLimit(p)
    ensures UpdateList(s, p, [], []) == Ok(s)
  {
  }

  lemma SaveMoves(x: State, max: nat, p: Policy, i: Input, m: State)
    requires x.table != [] && NoLimit(p) && NoChanges(i) && m == Moved(x.table, x.blocks, max, i) && m.table != []
    ensures Save(x, max, p, i) ==
      if i.timeouts > 0 && i.timeouts >= |x.table| then Failed(ExceedCandidateCount) else Saved(m)
  {
    UpdateOfNothing(m.table, p);
  }

  lemma CountedTurns(f: seq<Rank>, made: nat, max: nat, hash: nat, m: State)
    requires Table(f) && f != [] && m == Counted(f, made, max, hash)
    ensures m.table != [] && (made + 1 < max ==> m == State(f, made + 1))
    ensures made + 1 >= max ==>
      && m.blocks == 0 && Table(m.table)
      && multiset(m.table) == multiset(f) - multiset{f[0]} + multiset{AfterTurn(f[0], hash)}
  {
    MoveTopKeeps(f, f[0].phase + 1, hash);
  }

  /** A block without account changes under no limit. It is refused if and only if too many were skipped. Until the one
      on top has made its last block the table is the one without those skipped, and one more block is counted; then
      exactly the one on top goes one phase on, with the hash of the block, and counting starts anew. */
  lemma SaveTurns(x: State, max: nat, p: Policy, i: Input, f: seq<Rank>, made: nat)
    requires Table(x.table) && x.table != [] && NoLimit(p) && NoChanges(i)
    requires f == Forward(x.table, i.timeouts) && made == if i.timeouts > 0 then 0 else x.blocks
    ensures f != [] && Table(f) && (Save(x, max, p, i).Failed? <==> i.timeouts > 0 && i.timeouts >= |x.table|)
    ensures var r := Save(x, max, p, i);
      && (r.Saved? && made + 1 < max ==> r.state == State(f, made + 1))
      && (r.Saved? && made + 1 >= max ==>
            && r.state.blocks == 0 && Table(r.state.table)
            && multiset(r.state.table) == multiset(f) - multiset{f[0]} + multiset{AfterTurn(f[0], i.hash)})
  {
    ForwardKeeps(x.table, i.timeouts, f);
    var m := Counted(f, made, max, i.hash);
    CountedTurns(f, made, max, i.hash, m);
    SaveMoves(x, max, p, i, m);
  }

  lemma InMultiset(s: seq<Rank>, t: seq<Rank>, a: Rank, b: Rank, r: Rank)
    requires multiset(t) == multiset(s) - multiset{a} + multiset{b} && UniqueAddresses(s) && a in s
    ensures r in t <==> r == b || (r in s && r != a)
  {
    assert r in t <==> r in multiset(t);
    assert r in s <==> r in multiset(s);
    if r == a && r != b { OnceOnly(s, a); }
  }

  lemma OnceOnly(s: seq<Rank>, a: Rank)
    requires UniqueAddresses(s) && a in s
    ensures multiset(s)[a] == 1
  {
    var i :| 0 <= i < |s| && s[i] == a;
    assert s == s[..i] + [a] + s[i + 1..];
    assert a !in s[..i] && a !in s[i + 1..];
  }

  lemma LessAsym(a: Rank, b: Rank)
    requires Less(a, b)
    ensures !Less(b, a)
  {
  }

  lemma TopIsLeast(t: seq<Rank>, a: Rank)
    requires Table(t) && a in t
    ensures t[0] == a <==> forall b :: b in t && b != a ==> Less(a, b)
  {
    var i :| 0 <= i < |t| && t[i] == a;
    if i > 0 { LessAsym(t[0], a); }
    assert t[0] in t;
  }

  /** When a turn has ended, the same formulator is on top again if and only if it is before all others even with its
      new rank. */
  lemma OnTopAgainIff(s: seq<Rank>, t: seq<Rank>, n: Rank)
    requires Table(s) && s != [] && Table(t) && n.address == s[0].address
    requires multiset(t) == multiset(s) - multiset{s[0]} + multiset{n}
    ensures t != [] && (t[0].address == s[0].address <==> forall b :: b in s && b != s[0] ==> Less(n, b))
  {
    forall r ensures r in t <==> r == n || (r in s && r != s[0]) { InMultiset(s, t, s[0], n, r); }
    assert n in t;
    TopIsLeast(t, n);
    assert t[0] in t;
    if t[0].address == s[0].address && t[0] != n {
      assert t[0] in s && t[0] != s[0];
      OneOfAddress(s, t[0], s[0]);
    }
    forall b | b in s && b != s[0] ensures b != n { OneOfAddress(s, b, s[0]); }
  }

  // ---- runs without timeouts ----

  /** Nobody misses a turn and no account changes. */
  predicate Quiet(ps: seq<Policy>, inputs: seq<Input>) {
    && |ps| == |inputs| && (forall i :: 0 <= i < |ps| ==> NoLimit(ps[i]))
    && forall i :: 0 <= i < |inputs| ==> NoChanges(inputs[i]) && inputs[i].timeouts == 0
  }

  ghost predicate Ready(x: State, max: nat) { Table(x.table) && x.table != [] && x.blocks < max }

  /** What one block of such a run does. */
  ghost predicate Turns(x: State, max: nat, hash: nat, y: State) {
    if x.blocks + 1 < max then y == State(x.table, x.blocks + 1)
    else
      && y.blocks == 0 && Table(y.table) && x.table != []
      && multiset(y.table) == multiset(x.table) - multiset{x.table[0]} + multiset{AfterTurn(x.table[0], hash)}
  }

  lemma QuietStep(x: State, max: nat, p: Policy, i: Input)
    requires Ready(x, max) && NoLimit(p) && NoChanges(i) && i.timeouts == 0
    ensures Save(x, max, p, i).Saved? && Turns(x, max, i.hash, Save(x, max, p, i).state)
    ensures Ready(Save(x, max, p, i).state, max)
  {
    SaveTurns(x, max, p, i, x.table, x.blocks);
    assert AfterTurn(x.table[0], i.hash) in multiset{AfterTurn(x.table[0], i.hash)};
  }

  /** The states of a run, one before each block and one at the end. */
  ghost predicate History(x: State, max: nat, ps: seq<Policy>, inputs: seq<Input>, hist: seq<State>) {
    && |ps| == |inputs| && |hist| == |inputs| + 1
    && forall n :: 0 <= n <= |inputs| ==> SaveAll(x, max, ps[..n], inputs[..n]) == Saved(hist[n])
  }

  /** The same, by what each block does. */
  ghost predicate Turning(hist: seq<State>, max: nat, inputs: seq<Input>) {
    && |hist| == |inputs| + 1 && (forall n :: 0 <= n < |hist| ==> Ready(hist[n], max))
    && forall n :: 0 <= n < |inputs| ==> Turns(hist[n], max, inputs[n].hash, hist[n + 1])
  }

  lemma SavedNext(x: State, max: nat, ps: seq<Policy>, inputs: seq<Input>, n: nat, y: State)
    requires n < |inputs| == |ps| && SaveAll(x, max, ps[..n], inputs[..n]) == Saved(y) && y.table != []
    ensures SaveAll(x, max, ps[..n + 1], inputs[..n + 1]) == Save(y, max, ps[n], inputs[n])
  {
    assert ps[..n + 1][..n] == ps[..n] && inputs[..n + 1][..n] == inputs[..n];
  }

  lemma {:induction false} ReadyAt(x: State, max: nat, ps: seq<Policy>, inputs: seq<Input>, hist: seq<State>, n: nat)
    requires Ready(x, max) && Quiet(ps, inputs) && History(x, max, ps, inputs, hist) && n <= |inputs|
    ensures Ready(hist[n], max)
    ensures n < |inputs| ==> Turns(hist[n], max, inputs[n].hash, hist[n + 1])
  {
    assert SaveAll(x, max, ps[..n], inputs[..n]) == Saved(hist[n]);
    if n > 0 {
      ReadyAt(x, max, ps, inputs, hist, n - 1);
      SavedNext(x, max, ps, inputs, n - 1, hist[n - 1]);
      QuietStep(hist[n - 1], max, ps[n - 1], inputs[n - 1]);
    }
    if n < |inputs| {
      assert SaveAll(x, max, ps[..n + 1], inputs[..n + 1]) == Saved(hist[n + 1]);
      SavedNext(x, max, ps, inputs, n, hist[n]);
      QuietStep(hist[n], max, ps[n], inputs[n]);
    }
  }

  lemma HistoryTurns(x: State, max: nat, ps: seq<Policy>, inputs: seq<Input>, hist: seq<State>)
    requires Ready(x, max) && Quiet(ps, inputs) && History(x, max, ps, inputs, hist)
    ensures Turning(hist, max, inputs)
  {
    forall n | 0 <= n <= |inputs| ensures Ready(hist[n], max) { ReadyAt(x, max, ps, inputs, hist, n); }
    forall n | 0 <= n < |inputs| ensures Turns(hist[n], max, inputs[n].hash, hist[n + 1]) {
      ReadyAt(x, max, ps, inputs, hist, n);
    }
  }

  lemma HistoryGrows(x: State, max: nat, ps: seq<Policy>, inputs: seq<Input>, front: seq<State>, hist: seq<State>)
    requires inputs != [] && |ps| == |inputs| && |hist| == |front| + 1 && front == hist[..|front|]
    requires History(x, max, ps[..|ps| - 1], inputs[..|ps| - 1], front)
    requires SaveAll(x, max, ps[..|ps|], inputs[..|ps|]) == Saved(hist[|front|])
    ensures History(x, max, ps, inputs, hist)
  {
    forall m | 0 <= m <= |inputs| ensures SaveAll(x, max, ps[..m], inputs[..m]) == Saved(hist[m]) {
      if m < |ps| { HistoryStays(x, max, ps, inputs, front, |ps| - 1, m); }
    }
  }

  lemma HistoryStays(x: State, max: nat, ps: seq<Policy>, inputs: seq<Input>, front: seq<State>, n: nat, m: nat)
    requires m <= n <= |ps| == |inputs| && History(x, max, ps[..n], inputs[..n], front)
    ensures SaveAll(x, max, ps[..m], inputs[..m]) == Saved(front[m])
  {
    assert ps[..n][..m] == ps[..m] && inputs[..n][..m] == inputs[..m];
  }

  /** No block of such a run is refused. */
  lemma {:induction false} HistoryExists(x: State, max: nat, ps: seq<Policy>, inputs: seq<Input>)
      returns (hist: seq<State>)
    requires Ready(x, max) && Quiet(ps, inputs)
    ensures History(x, max, ps, inputs, hist)
  {
    if inputs == [] {
      hist := [x];
    } else {
      var n := |inputs| - 1;
      var front := HistoryExists(x, max, ps[..n], inputs[..n]);
      ReadyAt(x, max, ps[..n], inputs[..n], front, n);
      assert ps[..n][..n] == ps[..n] && inputs[..n][..n] == inputs[..n];
      SavedNext(x, max, ps, inputs, n, front[n]);
      QuietStep(front[n], max, ps[n], inputs[n]);
      hist := front + [Save(front[n], max, ps[n], inputs[n]).state];
      HistoryGrows(x, max, ps, inputs, front, hist);
    }
  }

  // ---- turns ----

  /** Who makes the next block: the one on top. */
  function Maker(x: State): nat { if x.table == [] then 0 else x.table[0].address }

  /** Until the turn is over, the same table with one more block each. */
  lemma {:induction false} WithinTurn(hist: seq<State>, max: nat, inputs: seq<Input>, n: nat, k: nat)
    requires Turning(hist, max, inputs) && n + k < |hist| && hist[n].blocks + k < max
    ensures hist[n + k] == State(hist[n].table, hist[n].blocks + k)
  {
    if k > 0 {
      WithinTurn(hist, max, inputs, n, k - 1);
      assert Turns(hist[n + k - 1], max, inputs[n + k - 1].hash, hist[n + k]);
    }
  }

  /** From any state of the run, the one on top makes exactly the blocks that are left of its turn; then it is on top
      again if and only if it is before all others even one phase on. */
  lemma TurnEnds(x: State, max: nat, ps: seq<Policy>, inputs: seq<Input>, hist: seq<State>, n: nat, k: nat, last: nat)
    requires Ready(x, max) && Quiet(ps, inputs) && History(x, max, ps, inputs, hist)
    requires n + k < |hist| && k == max - hist[n].blocks && last == n + k - 1 && k > 0
    ensures Turning(hist, max, inputs) && hist[n + k].blocks == 0
    ensures forall j :: n <= j <= last ==> Maker(hist[j]) == Maker(hist[n])
    ensures Maker(hist[n + k]) == Maker(hist[n]) <==>
      forall b :: b in hist[n].table && b != hist[n].table[0] ==>
        Less(AfterTurn(hist[n].table[0], inputs[last].hash), b)
  {
    HistoryTurns(x, max, ps, inputs, hist);
    forall j | n <= j <= last ensures Maker(hist[j]) == Maker(hist[n]) { WithinTurn(hist, max, inputs, n, j - n); }
    TurnGoesOn(hist, max, inputs, n, k, last);
  }

  lemma TurnGoesOn(hist: seq<State>, max: nat, inputs: seq<Input>, n: nat, k: nat, last: nat)
    requires Turning(hist, max, inputs) && n + k < |hist| && k == max - hist[n].blocks && last == n + k - 1 && k > 0
    ensures hist[n + k].blocks == 0 && hist[n].table != []
    ensures Maker(hist[n + k]) == Maker(hist[n]) <==>
      forall b :: b in hist[n].table && b != hist[n].table[0] ==>
        Less(AfterTurn(hist[n].table[0], inputs[last].hash), b)
  {
    WithinTurn(hist, max, inputs, n, k - 1);
    assert Turns(hist[last], max, inputs[last].hash, hist[n + k]);
    OnTopAgainIff(hist[n].table, hist[n + k].table, AfterTurn(hist[n].table[0], inputs[last].hash));
  }

  /** Nobody makes more blocks in a row than the maximum while another is at or before its new rank: after so many the
      turn has ended, and who goes on is before all others one phase on. */
  lemma NoLongRun(x: State, max: nat, ps: seq<Policy>, inputs: seq<Input>, hist: seq<State>, n: nat) returns (j: nat)
    requires Ready(x, max) && Quiet(ps, inputs) && History(x, max, ps, inputs, hist) && n + max < |hist|
    requires forall i :: n <= i <= n + max ==> Maker(hist[i]) == Maker(hist[n])
    ensures n <= j < n + max && hist[j].blocks + 1 >= max && hist[j].table != [] && Maker(hist[j]) == Maker(hist[n])
    ensures forall b :: b in hist[j].table && b != hist[j].table[0] ==>
      Less(AfterTurn(hist[j].table[0], inputs[j].hash), b)
  {
    HistoryTurns(x, max, ps, inputs, hist);
    var k := max - hist[n].blocks;
    j := n + k - 1;
    TurnEnds(x, max, ps, inputs, hist, n, k, j);
    WithinTurn(hist, max, inputs, n, k - 1);
    assert Maker(hist[n + k]) == Maker(hist[n]);
  }

  // ---- everybody's turn comes ----

  function Phases(s: seq<Rank>): nat { if s == [] then 0 else s[0].phase + Phases(s[1..]) }

  lemma {:induction false} PhasesJoin(s: seq<Rank>, t: seq<Rank>)
    ensures Phases(s + t) == Phases(s) + Phases(t)
  {
    if s == [] {
      assert s + t == t;
    } else {
      assert (s + t)[1..] == s[1..] + t;
      PhasesJoin(s[1..], t);
    }
  }

  lemma MiddlePhases(a: seq<Rank>, r: Rank, b: seq<Rank>)
    ensures Phases(a + ([r] + b)) == r.phase + Phases(a + b)
  {
    assert ([r] + b)[1..] == b;
    PhasesJoin(a, [r] + b);
    PhasesJoin(a, b);
  }

  lemma CutAt(t: seq<Rank>, i: nat, a: seq<Rank>, b: seq<Rank>)
    requires i < |t| && a == t[..i] && b == t[i + 1..]
    ensures t == a + ([t[i]] + b)
  {
  }

  lemma MiddleMultiset(a: seq<Rank>, r: Rank, b: seq<Rank>)
    ensures multiset(a + b) == multiset(a + ([r] + b)) - multiset{r}
  {
  }

  lemma CutIs(t: seq<Rank>, i: nat, a: seq<Rank>, b: seq<Rank>)
    requires i < |t| && a == t[..i] && b == t[i + 1..]
    ensures multiset(a + b) == multiset(t) - multiset{t[i]} && Phases(t) == t[i].phase + Phases(a + b)
  {
    CutAt(t, i, a, b);
    MiddlePhases(a, t[i], b);
    MiddleMultiset(a, t[i], b);
  }

  /** The sum does not depend on the order. */
  lemma {:induction false} PhasesOf(s: seq<Rank>, t: seq<Rank>)
    requires multiset(s) == multiset(t)
    ensures Phases(s) == Phases(t) && |s| == |t|
  {
    assert |multiset(s)| == |s| && |multiset(t)| == |t|;
    if s != [] {
      assert s[0] in multiset(t);
      var i :| 0 <= i < |t| && t[i] == s[0];
      CutIs(s, 0, [], s[1..]);
      CutIs(t, i, t[..i], t[i + 1..]);
      PhasesOf([] + s[1..], t[..i] + t[i + 1..]);
    }
  }

  lemma TurnPhases(s: seq<Rank>, t: seq<Rank>, hash: nat)
    requires s != [] && multiset(t) == multiset(s) - multiset{s[0]} + multiset{AfterTurn(s[0], hash)}
    ensures |t| == |s| && Phases(t) == Phases(s) + 1
  {
    var u := [AfterTurn(s[0], hash)] + s[1..];
    assert s == [s[0]] + s[1..] && u[1..] == s[1..];
    assert multiset(u) == multiset(t);
    PhasesOf(u, t);
  }

  lemma OneMore(n: nat, k: nat)
    ensures (n + 1) * k == n * k + k
  {
  }

  lemma {:induction false} PhasesWithin(s: seq<Rank>, lo: nat, hi: nat)
    requires Within(s, lo, hi)
    ensures |s| * lo <= Phases(s) <= |s| * hi
  {
    if s != [] {
      PhasesWithin(s[1..], lo, hi);
      OneMore(|s[1..]|, lo);
      OneMore(|s[1..]|, hi);
    }
  }

  /** The progress of a run: every block is one step. */
  function Progress(x: State, max: nat): nat { max * Phases(x.table) + x.blocks }

  lemma StepProgress(x: State, max: nat, hash: nat, y: State)
    requires Ready(x, max) && Turns(x, max, hash, y)
    ensures Progress(y, max) == Progress(x, max) + 1 && |y.table| == |x.table|
  {
    if x.blocks + 1 >= max {
      TurnPhases(x.table, y.table, hash);
      assert max * (Phases(x.table) + 1) == max * Phases(x.table) + max;
    }
  }

  lemma {:induction false} RunProgress(hist: seq<State>, max: nat, inputs: seq<Input>, n: nat)
    requires Turning(hist, max, inputs) && n < |hist|
    ensures Progress(hist[n], max) == Progress(hist[0], max) + n && |hist[n].table| == |hist[0].table|
  {
    if n > 0 {
      RunProgress(hist, max, inputs, n - 1);
      StepProgress(hist[n - 1], max, inputs[n - 1].hash, hist[n]);
    }
  }

  /** Who is not on top keeps its rank. */
  lemma {:induction false} WaiterStays(hist: seq<State>, max: nat, inputs: seq<Input>, r: Rank, n: nat)
    requires Turning(hist, max, inputs) && n < |hist| && r in hist[0].table
    requires forall i :: 0 <= i < n ==> Maker(hist[i]) != r.address
    ensures r in hist[n].table
  {
    if n > 0 {
      WaiterStays(hist, max, inputs, r, n - 1);
      var s := hist[n - 1].table;
      assert Turns(hist[n - 1], max, inputs[n - 1].hash, hist[n]) && r != s[0];
      if hist[n - 1].blocks + 1 >= max {
        InMultiset(s, hist[n].table, s[0], AfterTurn(s[0], inputs[n - 1].hash), r);
      }
    }
  }

  lemma {:induction false} SpreadStays(hist: seq<State>, max: nat, inputs: seq<Input>, n: nat)
    requires Turning(hist, max, inputs) && n < |hist| && Spread(hist[0].table, 2)
    ensures Spread(hist[n].table, 2)
  {
    if n > 0 {
      SpreadStays(hist, max, inputs, n - 1);
      SpreadNext(hist[n - 1], max, inputs[n - 1].hash, hist[n]);
    }
  }

  lemma SpreadNext(x: State, max: nat, hash: nat, y: State)
    requires Ready(x, max) && Turns(x, max, hash, y) && Spread(x.table, 2) && Ready(y, max)
    ensures Spread(y.table, 2)
  {
    if x.blocks + 1 >= max {
      var s, lo := x.table, x.table[0].phase;
      forall i | 0 <= i < |y.table| ensures lo <= y.table[i].phase <= lo + 2 {
        InMultiset(s, y.table, s[0], AfterTurn(s[0], hash), y.table[i]);
      }
      WithinSpread(y.table, lo, lo + 2, 2);
    }
  }

  lemma WaitArith(m: nat, max: nat, lo: nat, hi: nat, p: nat, q: nat, b: nat, c: nat, n: nat)
    requires m * lo <= p && q <= m * hi && hi <= lo + 4 && max * q + c == max * p + b + n && c < max
    ensures n < (4 * m + 1) * max
  {
    MulLess(m, hi, lo + 4);
    assert m * (lo + 4) == m * lo + 4 * m;
    MulLess(max, q, p + 4 * m);
    assert max * (p + 4 * m) == max * p + max * (4 * m);
    assert (4 * m + 1) * max == max * (4 * m) + max;
  }

  lemma WaitBounds(x: State, y: State, max: nat, r: Rank, n: nat)
    requires Ready(x, max) && Ready(y, max) && Spread(x.table, 2) && Spread(y.table, 2) && |y.table| == |x.table|
    requires r in x.table && r in y.table && Progress(y, max) == Progress(x, max) + n
    ensures n < (4 * |x.table| + 1) * max
  {
    var lo, hi := Smallest(x.table), Smallest(y.table) + 2;
    PhasesWithin(x.table, lo, lo + 2);
    PhasesWithin(y.table, Smallest(y.table), hi);
    assert r.phase <= lo + 2 && Smallest(y.table) <= r.phase;
    WaitArith(|x.table|, max, lo, hi, Phases(x.table), Phases(y.table), x.blocks, y.blocks, n);
  }

  lemma MulLess(a: nat, b: nat, c: nat)
    requires b <= c
    ensures a * b <= a * c
  {
  }

  /** With phases two apart at most, as they are where there is no limit function, every formulator makes a block within
      a bounded number of blocks: nobody waits for ever. */
  lemma EverybodyTurns(x: State, max: nat, ps: seq<Policy>, inputs: seq<Input>, hist: seq<State>, r: Rank)
      returns (n: nat)
    requires Ready(x, max) && Quiet(ps, inputs) && History(x, max, ps, inputs, hist)
    requires Spread(x.table, 2) && r in x.table && |inputs| >= (4 * |x.table| + 1) * max
    ensures n < |inputs| && hist[n].table != [] && Maker(hist[n]) == r.address
  {
    HistoryTurns(x, max, ps, inputs, hist);
    assert ps[..0] == [] && inputs[..0] == [];
    assert SaveAll(x, max, ps[..0], inputs[..0]) == Saved(hist[0]);
    var end := |inputs|;
    if forall i :: 0 <= i < end ==> Maker(hist[i]) != r.address {
      WaiterStays(hist, max, inputs, r, end);
      SpreadStays(hist, max, inputs, end);
      RunProgress(hist, max, inputs, end);
      WaitBounds(x, hist[end], max, r, end);
      assert false;
    }
    n :| 0 <= n < end && Maker(hist[n]) == r.address;
  }
}
