/** How the formulator accounts of a block change the rank table, and what saving a block does to it. */
module RankUpdate {
  import opened RankOrder

  datatype Code = InvalidPhase | ExistAddress | ExceedCandidateCount | InsufficientCandidateCount
  datatype Result = Ok(table: seq<Rank>) | Err(code: Code)

  function Smallest(s: seq<Rank>): nat { if s == [] then 0 else s[0].phase }
  function Largest(s: seq<Rank>): nat { if s == [] then 0 else s[|s| - 1].phase }

  function Add(s: seq<Rank>, r: Rank): Result {
    if s != [] && r.phase < s[0].phase then Err(InvalidPhase)
    else if r.address in Addresses(s) then Err(ExistAddress)
    else Ok(Insert(s, r))
  }

  /** A formulator account that the block touched. */
  datatype Change = Change(addr: nat, created: bool, activated: bool, pubhash: nat, hash: nat)

  predicate SameKey(s: seq<Rank>, addr: nat, pubhash: nat) {
    exists i :: 0 <= i < |s| && s[i].address == addr && s[i].pubhash == pubhash
  }

  function NewRank(c: Change, phase: nat): Rank { Rank(c.addr, c.pubhash, phase, c.hash) }

  function ChangeOne(s: seq<Rank>, phase: nat, c: Change): Result {
    if c.created then
      if c.activated then Add(s, NewRank(c, phase)) else Ok(s)
    else if c.addr in Addresses(s) then
      if !c.activated then Ok(Without(s, c.addr))
      else if SameKey(s, c.addr, c.pubhash) then Ok(s)
      else Add(Without(s, c.addr), NewRank(c, phase))
    else if c.activated then Add(s, NewRank(c, phase))
    else Ok(s)
  }

  function ChangeAll(s: seq<Rank>, phase: nat, cs: seq<Change>): Result {
    if cs == [] then Ok(s)
    else
      var r := ChangeAll(s, phase, cs[..|cs| - 1]);
      if r.Err? then r else ChangeOne(r.table, phase, cs[|cs| - 1])
  }

  function WithoutAll(s: seq<Rank>, gone: seq<nat>): seq<Rank> {
    if gone == [] then s else Without(WithoutAll(s, gone[..|gone| - 1]), gone[|gone| - 1])
  }

  /** Ranks that are too far ahead come back to `max`, one after another. */
  function Clamp(s: seq<Rank>, list: seq<Rank>, max: nat): Result {
    if list == [] then Ok(s)
    else
      var r := Clamp(s, list[..|list| - 1], max);
      var last := list[|list| - 1];
      if r.Err? || last.phase <= max then r else Add(Without(r.table, last.address), last.(phase := max))
  }

  /** `NoPolicy` is a consensus without a limit function; a limit of 0 is no limit. */
  datatype Policy = NoPolicy | MaxDiff(diff: nat)

  function JoinPhase(s: seq<Rank>, p: Policy): nat {
    match p
    case NoPolicy => Smallest(s) + 2
    case MaxDiff(d) =>
      if d != 0 && Largest(s) + 1 > Smallest(s) + d then Smallest(s) + d else Largest(s) + 1
  }

  function Limited(s: seq<Rank>, p: Policy): Result {
    if p.MaxDiff? && p.diff != 0 && Largest(s) > Smallest(s) + p.diff then Clamp(s, s, Smallest(s) + p.diff) else Ok(s)
  }

  function UpdateList(s: seq<Rank>, p: Policy, cs: seq<Change>, gone: seq<nat>): Result {
    var limited := Limited(s, p);
    if limited.Err? then limited
    else
      var changed := ChangeAll(limited.table, JoinPhase(s, p), cs);
      if changed.Err? then changed
      else
        var left := WithoutAll(changed.table, gone);
        if left == [] then Err(InsufficientCandidateCount) else Ok(left)
  }

  // ---- removing ----

  lemma {:induction false} WithoutIs(s: seq<Rank>, addr: nat)
    ensures forall i :: 0 <= i < |Without(s, addr)| ==> Without(s, addr)[i] in s && Without(s, addr)[i].address != addr
    ensures forall i :: 0 <= i < |s| && s[i].address != addr ==> s[i] in Without(s, addr)
  {
    if s != [] {
      WithoutIs(s[1..], addr);
      assert s == [s[0]] + s[1..];
    }
  }

  /** Every member of `s` is after `r` in the order and has another address. */
  predicate After(r: Rank, s: seq<Rank>) {
    forall i :: 0 <= i < |s| ==> Less(r, s[i]) && r.address != s[i].address
  }

  lemma ConsTable(r: Rank, s: seq<Rank>)
    requires Table(s) && After(r, s)
    ensures Table([r] + s)
  {
    var t := [r] + s;
    forall i, j | 0 <= i < j < |t| ensures Less(t[i], t[j]) && t[i].address != t[j].address {
      assert t[j] == s[j - 1];
      if i > 0 { assert t[i] == s[i - 1]; }
    }
  }

  lemma HeadAfter(s: seq<Rank>)
    requires Table(s) && s != []
    ensures Table(s[1..]) && After(s[0], s[1..])
  {
    TailTable(s);
  }

  lemma {:induction false} WithoutKeeps(s: seq<Rank>, addr: nat)
    requires Table(s)
    ensures Table(Without(s, addr))
  {
    if s != [] {
      HeadAfter(s);
      WithoutKeeps(s[1..], addr);
      WithoutIs(s[1..], addr);
      var t := Without(s[1..], addr);
      assert After(s[0], t) by {
        forall i | 0 <= i < |t| ensures Less(s[0], t[i]) && s[0].address != t[i].address {
          assert t[i] in s[1..];
        }
      }
      if s[0].address != addr { ConsTable(s[0], t); }
    }
  }

  lemma WithoutAddresses(s: seq<Rank>, addr: nat)
    ensures Addresses(Without(s, addr)) == Addresses(s) - {addr}
  {
    WithoutIs(s, addr);
    var t := Without(s, addr);
    forall a | a in Addresses(s) - {addr} ensures a in Addresses(t) {
      var i :| 0 <= i < |s| && s[i].address == a;
      assert s[i] in t;
      var j :| 0 <= j < |t| && t[j] == s[i];
    }
    forall i | 0 <= i < |t| ensures t[i].address in Addresses(s) - {addr} {
      assert t[i] in s;
    }
  }

  // ---- phases ----

  /** All phases lie between `lo` and `hi`. */
  predicate Within(s: seq<Rank>, lo: nat, hi: nat) {
    forall i :: 0 <= i < |s| ==> lo <= s[i].phase <= hi
  }

  lemma LessPhase(a: Rank, b: Rank)
    requires Less(a, b)
    ensures a.phase <= b.phase
  {
  }

  /** The first rank has the smallest phase, the last the largest. */
  lemma SortedWithin(s: seq<Rank>)
    requires Sorted(s)
    ensures Within(s, Smallest(s), Largest(s))
  {
    forall i | 0 <= i < |s| ensures Smallest(s) <= s[i].phase <= Largest(s) {
      if i > 0 { LessPhase(s[0], s[i]); }
      if i < |s| - 1 { LessPhase(s[i], s[|s| - 1]); }
    }
  }

  lemma InsertWithin(s: seq<Rank>, r: Rank, lo: nat, hi: nat)
    requires Within(s, lo, hi) && lo <= r.phase <= hi
    ensures Within(Insert(s, r), lo, hi)
  {
  }

  lemma WithoutWithin(s: seq<Rank>, addr: nat, lo: nat, hi: nat)
    requires Within(s, lo, hi)
    ensures Within(Without(s, addr), lo, hi)
  {
    WithoutIs(s, addr);
  }

  /** What every change keeps: the table, and phases up to that of a newcomer. */
  ghost predicate Keeps(s: seq<Rank>, lo: nat, hi: nat) { Table(s) && Within(s, lo, hi) }

  /** With all phases at most that of the newcomer, adding fails only for an address that is there. */
  lemma AddKeeps(s: seq<Rank>, r: Rank, lo: nat)
    requires Keeps(s, lo, r.phase) && lo <= r.phase
    ensures Add(s, r) == if r.address in Addresses(s) then Err(ExistAddress) else Ok(Insert(s, r))
    ensures Add(s, r).Ok? ==> Keeps(Add(s, r).table, lo, r.phase)
  {
    if r.address !in Addresses(s) {
      InsertKeeps(s, r);
      InsertWithin(s, r, lo, r.phase);
    }
  }

  /** One account change: it fails exactly when a newly created, active formulator is in the table already. */
  lemma ChangeOneKeeps(s: seq<Rank>, phase: nat, c: Change, lo: nat)
    requires Keeps(s, lo, phase) && lo <= phase
    ensures var r := ChangeOne(s, phase, c);
      && (r.Err? <==> c.created && c.activated && c.addr in Addresses(s))
      && (r.Err? ==> r.code == ExistAddress)
      && (r.Ok? ==> Keeps(r.table, lo, phase))
  {
    var n := NewRank(c, phase);
    AddKeeps(s, n, lo);
    WithoutKeeps(s, c.addr);
    WithoutWithin(s, c.addr, lo, phase);
    WithoutAddresses(s, c.addr);
    AddKeeps(Without(s, c.addr), n, lo);
  }

  lemma {:induction false} ChangeAllKeeps(s: seq<Rank>, phase: nat, cs: seq<Change>, lo: nat)
    requires Keeps(s, lo, phase) && lo <= phase
    ensures var r := ChangeAll(s, phase, cs);
      && (r.Ok? ==> Keeps(r.table, lo, phase))
      && (r.Err? ==> r.code == ExistAddress)
  {
    if cs != [] {
      var front := cs[..|cs| - 1];
      ChangeAllKeeps(s, phase, front, lo);
      var r := ChangeAll(s, phase, front);
      if r.Ok? {
        ChangeOneKeeps(r.table, phase, cs[|cs| - 1], lo);
      }
    }
  }

  lemma {:induction false} WithoutAllKeeps(s: seq<Rank>, gone: seq<nat>, lo: nat, hi: nat)
    requires Keeps(s, lo, hi)
    ensures Keeps(WithoutAll(s, gone), lo, hi)
  {
    if gone != [] {
      WithoutAllKeeps(s, gone[..|gone| - 1], lo, hi);
      WithoutKeeps(WithoutAll(s, gone[..|gone| - 1]), gone[|gone| - 1]);
      WithoutWithin(WithoutAll(s, gone[..|gone| - 1]), gone[|gone| - 1], lo, hi);
    }
  }

  // ---- bringing ranks back that are too far ahead ----

  /** Where the ranks of a partly clamped table come from. */
  ghost predicate Clamped(t: seq<Rank>, s: seq<Rank>, k: nat, max: nat)
    requires k <= |s|
  {
    && Table(t) && Addresses(t) == Addresses(s)
    && forall i :: 0 <= i < |t| ==> t[i].phase == max || (t[i] in s && (t[i].phase <= max || t[i] in s[k..]))
  }

  lemma MemberPlace(s: seq<Rank>, k: nat, x: Rank)
    requires Table(s) && k < |s| && x in s[k..] && x.address != s[k].address
    ensures x in s[k + 1..]
  {
    var j :| 0 <= j < |s[k..]| && s[k..][j] == x;
    assert s[k + j] == x && j > 0;
    assert s[k + 1..][j - 1] == x;
  }

  lemma HasAddress(s: seq<Rank>, x: Rank)
    requires x in s
    ensures x.address in Addresses(s)
  {
  }

  lemma OneOfAddress(s: seq<Rank>, x: Rank, y: Rank)
    requires Table(s) && x in s && y in s
    ensures x.address == y.address ==> x == y
  {
  }

  /** The first rank is in the table all along, so the others can be added behind it. */
  lemma {:induction false} ClampSteps(s: seq<Rank>, k: nat, max: nat)
    requires Table(s) && s != [] && s[0].phase <= max && k <= |s|
    ensures var r := Clamp(s, s[..k], max);
      r.Ok? && Clamped(r.table, s, k, max) && s[0] in r.table
  {
    if k > 0 {
      ClampSteps(s, k - 1, max);
      assert s[..k][..k - 1] == s[..k - 1];
      var t, x := Clamp(s, s[..k - 1], max).table, s[k - 1];
      if x.phase <= max {
        ClampPast(t, s, k - 1, max);
      } else {
        ClampOne(t, s, k - 1, max);
      }
    } else {
      assert s[0..] == s;
    }
  }

  lemma ClampPast(t: seq<Rank>, s: seq<Rank>, k: nat, max: nat)
    requires Table(s) && k < |s| && Clamped(t, s, k, max) && s[k].phase <= max
    ensures Clamped(t, s, k + 1, max)
  {
    forall i | 0 <= i < |t| && t[i].phase > max ensures t[i] in s[k + 1..] {
      assert t[i] != s[k];
      OneOfAddress(s, t[i], s[k]);
      MemberPlace(s, k, t[i]);
    }
  }

  lemma ClampOne(t: seq<Rank>, s: seq<Rank>, k: nat, max: nat)
    requires Table(s) && 0 <= k < |s| && Clamped(t, s, k, max) && s[k].phase > max >= s[0].phase && s[0] in t
    ensures var r := Add(Without(t, s[k].address), s[k].(phase := max));
      r.Ok? && Clamped(r.table, s, k + 1, max) && s[0] in r.table
  {
    var x := s[k];
    var u, y := Without(t, x.address), x.(phase := max);
    assert s[0].address != x.address;
    WithoutIs(t, x.address);
    WithoutKeeps(t, x.address);
    WithoutAddresses(t, x.address);
    assert s[0] in u;
    SortedWithin(u);
    InsertKeeps(u, y);
    assert Addresses(s) == Addresses(s) - {x.address} + {x.address} by { assert x in s; HasAddress(s, x); }
    InsertHas(u, y, s[0]);
    ClampedInsert(t, s, k, max, u, y);
  }

  lemma InsertHas(u: seq<Rank>, y: Rank, x: Rank)
    ensures x in Insert(u, y) <==> x in u || x == y
  {
    var n := Place(u, y);
    assert u == u[..n] + u[n..];
  }

  lemma ClampedInsert(t: seq<Rank>, s: seq<Rank>, k: nat, max: nat, u: seq<Rank>, y: Rank)
    requires Table(s) && k < |s| && Clamped(t, s, k, max) && y.phase == max && u == Without(t, s[k].address)
    ensures var v := Insert(u, y);
      forall i :: 0 <= i < |v| ==> v[i].phase == max || (v[i] in s && (v[i].phase <= max || v[i] in s[k + 1..]))
  {
    WithoutIs(t, s[k].address);
    var v := Insert(u, y);
    forall i | 0 <= i < |v| ensures v[i].phase == max || (v[i] in s && (v[i].phase <= max || v[i] in s[k + 1..])) {
      InsertHas(u, y, v[i]);
      if v[i] in u && v[i].phase > max {
        assert v[i] in t;
        MemberPlace(s, k, v[i]);
      }
    }
  }

  /** Clamping never fails, keeps the formulators and leaves no phase above the limit. */
  lemma ClampKeeps(s: seq<Rank>, max: nat)
    requires Table(s) && s != [] && s[0].phase <= max
    ensures var r := Clamp(s, s, max);
      r.Ok? && Addresses(r.table) == Addresses(s) && Keeps(r.table, Smallest(s), max)
  {
    ClampSteps(s, |s|, max);
    assert s[..|s|] == s && s[|s|..] == [];
    SortedWithin(s);
  }

  // ---- the whole update ----

  lemma LimitedKeeps(s: seq<Rank>, p: Policy)
    requires Table(s) && (p.NoPolicy? ==> Within(s, Smallest(s), Smallest(s) + 2))
    ensures var r := Limited(s, p);
      r.Ok? && Smallest(s) <= JoinPhase(s, p) && Keeps(r.table, Smallest(s), JoinPhase(s, p))
  {
    SortedWithin(s);
    if p.MaxDiff? && p.diff != 0 && Largest(s) > Smallest(s) + p.diff {
      ClampKeeps(s, Smallest(s) + p.diff);
    }
  }

  /** Updating the list never meets a phase that is too small; what it returns is a table in which no phase is
      below the former smallest or above the one newcomers get. */
  lemma UpdateKeeps(s: seq<Rank>, p: Policy, cs: seq<Change>, gone: seq<nat>)
    requires Table(s) && (p.NoPolicy? ==> Within(s, Smallest(s), Smallest(s) + 2))
    ensures var r := UpdateList(s, p, cs, gone);
      && (r.Err? ==> r.code == ExistAddress || r.code == InsufficientCandidateCount)
      && (r.Ok? ==> r.table != [] && Keeps(r.table, Smallest(s), JoinPhase(s, p)))
  {
    LimitedKeeps(s, p);
    var t := Limited(s, p).table;
    ChangeAllKeeps(t, JoinPhase(s, p), cs, Smallest(s));
    var changed := ChangeAll(t, JoinPhase(s, p), cs);
    if changed.Ok? {
      WithoutAllKeeps(changed.table, gone, Smallest(s), JoinPhase(s, p));
    }
  }

  // ---- saving blocks ----

  /** The consensus state: the table, and how many blocks its top has made in a row. */
  datatype State = State(table: seq<Rank>, blocks: nat)
  datatype Saved = Saved(state: State) | Failed(code: Code)

  /** What a block brings: how many formulators missed their turn, its hash, and the accounts it changed. */
  datatype Input = Input(timeouts: nat, hash: nat, changes: seq<Change>, gone: seq<nat>)

  /** The top has made one more block, perhaps its last. */
  function Counted(t: seq<Rank>, b: nat, max: nat, hash: nat): State
    requires t != []
  {
    if b + 1 >= max then State(ForwardTop(t, hash), 0) else State(t, b + 1)
  }

  function Moved(s: seq<Rank>, blocks: nat, max: nat, i: Input): State
    requires s != []
  {
    Counted(Forward(s, i.timeouts), if i.timeouts > 0 then 0 else blocks, max, i.hash)
  }

  function Save(x: State, max: nat, p: Policy, i: Input): Saved
    requires x.table != []
  {
    if i.timeouts > 0 && i.timeouts >= |x.table| then Failed(ExceedCandidateCount)
    else
      var m := Moved(x.table, x.blocks, max, i);
      var r := UpdateList(m.table, p, i.changes, i.gone);
      if r.Err? then Failed(r.code) else Saved(State(r.table, m.blocks))
  }

  predicate Spread(s: seq<Rank>, d: nat) { Within(s, Smallest(s), Smallest(s) + d) }

  lemma WithinSpread(s: seq<Rank>, lo: nat, hi: nat, d: nat)
    requires Sorted(s) && s != [] && Within(s, lo, hi) && hi <= lo + d
    ensures Spread(s, d)
  {
    SortedWithin(s);
  }

  /** Moving the top back by one or two phases keeps the phases two apart at most. */
  lemma MoveTopSpread(s: seq<Rank>, phase: nat, space: nat)
    requires Table(s) && s != [] && Spread(s, 2) && s[0].phase < phase <= s[0].phase + 2
    ensures Spread(MoveTop(s, phase, space), 2)
  {
    MoveTopKeeps(s, phase, space);
    var lo, hi := s[0].phase, s[0].phase + 2;
    assert Within(s[1..], lo, hi);
    InsertWithin(s[1..], s[0].(phase := phase, space := space), lo, hi);
    WithinSpread(MoveTop(s, phase, space), lo, hi, 2);
  }

  lemma {:induction false} ForwardSpread(s: seq<Rank>, k: nat, t: seq<Rank>)
    requires Table(s) && s != [] && Spread(s, 2) && t == Forward(s, k)
    ensures Spread(t, 2)
    decreases k
  {
    if k > 0 {
      SkipKeeps(s);
      MoveTopSpread(s, s[0].phase + 2, s[0].space);
      ForwardSpread(Skip(s), k - 1, t);
    }
  }

  lemma CountedKeeps(t: seq<Rank>, b: nat, max: nat, hash: nat)
    requires Table(t) && t != [] && 0 < max
    ensures var m := Counted(t, b, max, hash);
      && Table(m.table) && m.table != [] && Addresses(m.table) == Addresses(t) && m.blocks < max
      && (Spread(t, 2) ==> Spread(m.table, 2))
  {
    MoveTopKeeps(t, t[0].phase + 1, hash);
    if Spread(t, 2) { MoveTopSpread(t, t[0].phase + 1, hash); }
  }

  lemma MovedKeeps(s: seq<Rank>, blocks: nat, max: nat, i: Input)
    requires Table(s) && s != [] && 0 < max
    ensures var m := Moved(s, blocks, max, i);
      && Table(m.table) && m.table != [] && Addresses(m.table) == Addresses(s) && m.blocks < max
      && (Spread(s, 2) ==> Spread(m.table, 2))
  {
    var t := Forward(s, i.timeouts);
    ForwardKeeps(s, i.timeouts, t);
    if Spread(s, 2) { ForwardSpread(s, i.timeouts, t); }
    CountedKeeps(t, if i.timeouts > 0 then 0 else blocks, max, i.hash);
  }

  /** A consensus state in order: a non-empty table, and a count of blocks below the maximum. */
  ghost predicate InOrder(x: State, max: nat, p: Policy) {
    && Table(x.table) && x.table != [] && x.blocks < max
    && (p.NoPolicy? ==> Spread(x.table, 2))
  }

  /** Saving a block keeps the state in order, and fails only for the listed reasons. */
  lemma SaveKeeps(x: State, max: nat, p: Policy, i: Input)
    requires InOrder(x, max, p)
    ensures var r := Save(x, max, p, i);
      && (r.Saved? ==> InOrder(r.state, max, p))
      && (r.Failed? ==> r.code != InvalidPhase)
      && (r.Saved? && p.MaxDiff? && p.diff > 0 ==> Spread(r.state.table, p.diff))
  {
    if i.timeouts == 0 || i.timeouts < |x.table| {
      var m := Moved(x.table, x.blocks, max, i);
      MovedKeeps(x.table, x.blocks, max, i);
      UpdateKeeps(m.table, p, i.changes, i.gone);
      var r := UpdateList(m.table, p, i.changes, i.gone);
      if r.Ok? {
        var lo, hi := Smallest(m.table), JoinPhase(m.table, p);
        if p.NoPolicy? { WithinSpread(r.table, lo, hi, 2); }
        if p.MaxDiff? && p.diff > 0 { WithinSpread(r.table, lo, hi, p.diff); }
      }
    }
  }

  function SaveAll(x: State, max: nat, ps: seq<Policy>, inputs: seq<Input>): Saved
    requires |ps| == |inputs|
  {
    if inputs == [] then Saved(x)
    else
      var n := |inputs| - 1;
      var r := SaveAll(x, max, ps[..n], inputs[..n]);
      if r.Failed? || r.state.table == [] then r else Save(r.state, max, ps[n], inputs[n])
  }

  /** A node has a limit function or it has none; the limit may be another at each height. */
  predicate OneKind(ps: seq<Policy>, none: bool) {
    forall i :: 0 <= i < |ps| ==> (ps[i].NoPolicy? <==> none)
  }

  ghost predicate Sound(x: State, max: nat, none: bool) {
    InOrder(x, max, if none then NoPolicy else MaxDiff(0)) && 1 <= max - x.blocks <= max
  }

  /** Over every run, with or without a limit function: no block is refused for a phase, the table stays in order, the
      phases stay two apart at most or as far as the last limit allows, and the next blocks of the same formulator
      number between one and the maximum. */
  lemma {:induction false} RunKeeps(x: State, max: nat, none: bool, ps: seq<Policy>, inputs: seq<Input>)
    requires Sound(x, max, none) && |ps| == |inputs| && OneKind(ps, none)
    ensures var r := SaveAll(x, max, ps, inputs);
      && (r.Failed? ==> r.code != InvalidPhase)
      && (r.Saved? ==> Sound(r.state, max, none))
      && (r.Saved? && none ==> Spread(r.state.table, 2))
      && (r.Saved? && ps != [] && ps[|ps| - 1].MaxDiff? && ps[|ps| - 1].diff > 0 ==>
        Spread(r.state.table, ps[|ps| - 1].diff))
  {
    if inputs != [] {
      var n := |inputs| - 1;
      RunKeeps(x, max, none, ps[..n], inputs[..n]);
      var r := SaveAll(x, max, ps[..n], inputs[..n]);
      if r.Saved? { SaveKeeps(r.state, max, ps[n], inputs[n]); }
    }
  }

  /** The same from the genesis block on. */
  lemma GenesisRunKeeps(max: nat, none: bool, p: Policy, cs: seq<Change>, gone: seq<nat>, ps: seq<Policy>,
                        inputs: seq<Input>)
    requires max > 0 && UpdateList([], p, cs, gone).Ok? && |ps| == |inputs| && OneKind([p] + ps, none)
    ensures var r := SaveAll(State(UpdateList([], p, cs, gone).table, 0), max, ps, inputs);
      && (r.Failed? ==> r.code != InvalidPhase)
      && (r.Saved? ==> Sound(r.state, max, none))
      && (r.Saved? && none ==> Spread(r.state.table, 2))
      && (r.Saved? && ps != [] && ps[|ps| - 1].MaxDiff? && ps[|ps| - 1].diff > 0 ==>
        Spread(r.state.table, ps[|ps| - 1].diff))
  {
    GenesisInOrder(max, p, cs, gone);
    assert ([p] + ps)[0] == p && forall i :: 0 <= i < |ps| ==> ([p] + ps)[i + 1] == ps[i];
    RunKeeps(State(UpdateList([], p, cs, gone).table, 0), max, none, ps, inputs);
  }

  /** The table that a genesis block makes is in order. */
  lemma GenesisInOrder(max: nat, p: Policy, cs: seq<Change>, gone: seq<nat>)
    requires max > 0 && UpdateList([], p, cs, gone).Ok?
    ensures InOrder(State(UpdateList([], p, cs, gone).table, 0), max, p)
  {
    UpdateKeeps([], p, cs, gone);
    var t := UpdateList([], p, cs, gone).table;
    if p.NoPolicy? { WithinSpread(t, 0, 2, 2); }
  }
}
