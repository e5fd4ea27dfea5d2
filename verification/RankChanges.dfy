/** Who is in the rank table after a block, and with which rank, whatever the order in which accounts are walked. */
module RankChanges {
  import opened RankOrder
  import opened RankUpdate

  // ---- the limit ----

  /** A rank that is too far ahead comes back to `max`. */
  function Clip(r: Rank, max: nat): Rank { if r.phase > max then r.(phase := max) else r }

  /** `r` is rank `j` of `s`, clipped if that is among the first `k`. */
  predicate Clips(s: seq<Rank>, j: int, k: nat, max: nat, r: Rank) {
    0 <= j < |s| && r == if j < k then Clip(s[j], max) else s[j]
  }

  ghost predicate Comes(s: seq<Rank>, k: nat, max: nat, r: Rank) { exists j :: Clips(s, j, k, max, r) }

  /** The first `k` ranks of `s` are clipped, the others are as they were. */
  ghost predicate ClippedUpTo(t: seq<Rank>, s: seq<Rank>, k: nat, max: nat) {
    forall r :: r in t <==> Comes(s, k, max, r)
  }

  lemma WithoutHas(s: seq<Rank>, addr: nat, r: Rank)
    ensures r in Without(s, addr) <==> r in s && r.address != addr
  {
    WithoutIs(s, addr);
  }

  lemma Others(s: seq<Rank>, k: nat, j: nat)
    requires Table(s) && k < |s| && j < |s|
    ensures s[j].address == s[k].address <==> j == k
  {
  }

  lemma ComesNext(s: seq<Rank>, k: nat, m: nat, max: nat, r: Rank)
    requires Table(s) && k < |s| && m == k + 1
    ensures Comes(s, m, max, r) <==> r == Clip(s[k], max) || (Comes(s, k, max, r) && r.address != s[k].address)
  {
    if j :| Clips(s, j, m, max, r) {
      Others(s, k, j);
      assert j == k || Clips(s, j, k, max, r);
    }
    if j :| Clips(s, j, k, max, r) && r.address != s[k].address { assert Clips(s, j, m, max, r); }
    assert Clips(s, k, m, max, Clip(s[k], max));
  }

  lemma ComesSame(s: seq<Rank>, k: nat, m: nat, max: nat, r: Rank)
    requires k < |s| && m == k + 1 && s[k].phase <= max
    ensures Comes(s, m, max, r) <==> Comes(s, k, max, r)
  {
    if j :| Clips(s, j, m, max, r) { assert Clips(s, j, k, max, r); }
    if j :| Clips(s, j, k, max, r) { assert Clips(s, j, m, max, r); }
  }

  lemma ClipOne(t: seq<Rank>, s: seq<Rank>, k: nat, max: nat, u: seq<Rank>)
    requires Table(s) && k < |s| && ClippedUpTo(t, s, k, max)
    requires u == Insert(Without(t, s[k].address), Clip(s[k], max))
    ensures ClippedUpTo(u, s, k + 1, max)
  {
    forall r ensures r in u <==> Comes(s, k + 1, max, r) {
      InsertHas(Without(t, s[k].address), Clip(s[k], max), r);
      WithoutHas(t, s[k].address, r);
      ComesNext(s, k, k + 1, max, r);
      assert r in t <==> Comes(s, k, max, r);
    }
  }

  lemma ClipNone(t: seq<Rank>, s: seq<Rank>, k: nat, max: nat)
    requires k < |s| && ClippedUpTo(t, s, k, max) && s[k].phase <= max
    ensures ClippedUpTo(t, s, k + 1, max)
  {
    forall r ensures r in t <==> Comes(s, k + 1, max, r) {
      assert r in t <==> Comes(s, k, max, r);
      ComesSame(s, k, k + 1, max, r);
    }
  }

  lemma NoneClipped(s: seq<Rank>, max: nat)
    ensures ClippedUpTo(s, s, 0, max)
  {
    forall r ensures r in s <==> Comes(s, 0, max, r) {
      if r in s {
        var j :| 0 <= j < |s| && s[j] == r;
        assert Clips(s, j, 0, max, r);
      }
    }
  }

  lemma {:induction false} ClampIs(s: seq<Rank>, k: nat, max: nat)
    requires Table(s) && s != [] && s[0].phase <= max && k <= |s|
    ensures Clamp(s, s[..k], max).Ok? && ClippedUpTo(Clamp(s, s[..k], max).table, s, k, max)
  {
    ClampSteps(s, k, max);
    if k == 0 {
      NoneClipped(s, max);
    } else {
      ClampIs(s, k - 1, max);
      assert s[..k][..k - 1] == s[..k - 1];
      var t := Clamp(s, s[..k - 1], max).table;
      if s[k - 1].phase > max {
        ClipOne(t, s, k - 1, max, Clamp(s, s[..k], max).table);
      } else {
        ClipNone(t, s, k - 1, max);
      }
    }
  }

  lemma AllClipped(t: seq<Rank>, s: seq<Rank>, max: nat, r: Rank)
    requires ClippedUpTo(t, s, |s|, max)
    ensures r in t <==> exists q :: q in s && r == Clip(q, max)
  {
    assert r in t <==> Comes(s, |s|, max, r);
    if j :| Clips(s, j, |s|, max, r) { assert s[j] in s; }
    if q :| q in s && r == Clip(q, max) {
      var j :| 0 <= j < |s| && s[j] == q;
      assert Clips(s, j, |s|, max, r);
    }
  }

  /** What the limit makes of a rank. */
  function Limit(s: seq<Rank>, p: Policy, r: Rank): Rank {
    if p.MaxDiff? && p.diff != 0 then Clip(r, Smallest(s) + p.diff) else r
  }

  ghost predicate FromSome(s: seq<Rank>, p: Policy, r: Rank) { exists q :: q in s && r == Limit(s, p, q) }

  lemma ClampedAll(s: seq<Rank>, p: Policy, max: nat, r: Rank)
    requires Table(s) && p.MaxDiff? && p.diff != 0 && max == Smallest(s) + p.diff && s != []
    ensures Clamp(s, s, max).Ok? && (r in Clamp(s, s, max).table <==> FromSome(s, p, r))
  {
    ClampIs(s, |s|, max);
    assert s[..|s|] == s;
    AllClipped(Clamp(s, s, max).table, s, max, r);
    if q :| q in s && r == Clip(q, max) { assert r == Limit(s, p, q); }
    if q :| q in s && r == Limit(s, p, q) { assert r == Clip(q, max); }
  }

  lemma NothingLimited(s: seq<Rank>, p: Policy, r: Rank)
    requires Table(s) && (p.MaxDiff? && p.diff != 0 ==> Largest(s) <= Smallest(s) + p.diff)
    ensures r in s <==> FromSome(s, p, r)
  {
    SortedWithin(s);
    if r in s { assert r == Limit(s, p, r); }
    if q :| q in s && r == Limit(s, p, q) { assert r == q; }
  }

  /** Under a limit exactly the ranks too far ahead come back to it, and nobody leaves or joins. */
  lemma LimitedIs(s: seq<Rank>, p: Policy, r: Rank)
    requires Table(s)
    ensures Limited(s, p).Ok? && (r in Limited(s, p).table <==> FromSome(s, p, r))
  {
    if p.MaxDiff? && p.diff != 0 && Largest(s) > Smallest(s) + p.diff {
      ClampedAll(s, p, Smallest(s) + p.diff, r);
    } else {
      NothingLimited(s, p, r);
    }
  }

  // ---- changed accounts ----

  /** The account comes into the table, as a newcomer. */
  predicate Enters(s: seq<Rank>, c: Change) {
    c.activated && (c.created || c.addr !in Addresses(s) || !SameKey(s, c.addr, c.pubhash))
  }

  /** What the table has of the account stays. */
  predicate Stays(s: seq<Rank>, c: Change) {
    if c.created then !c.activated else c.activated && SameKey(s, c.addr, c.pubhash)
  }

  /** The table after the change of one account. */
  ghost predicate ChangedTo(s: seq<Rank>, phase: nat, c: Change, r: Rank) {
    if r.address != c.addr then r in s
    else (Enters(s, c) && r == NewRank(c, phase)) || (Stays(s, c) && r in s)
  }

  predicate Clashes(s: seq<Rank>, c: Change) { c.created && c.activated && c.addr in Addresses(s) }

  lemma InAddresses(s: seq<Rank>, r: Rank)
    requires r in s
    ensures r.address in Addresses(s)
  {
  }

  lemma AddHas(s: seq<Rank>, n: Rank, lo: nat, r: Rank)
    requires Keeps(s, lo, n.phase) && lo <= n.phase && n.address !in Addresses(s)
    ensures Add(s, n).Ok? && (r in Add(s, n).table <==> r in s || r == n)
  {
    AddKeeps(s, n, lo);
    InsertHas(s, n, r);
  }

  /** Others keep their rank; the account itself joins, stays or leaves. */
  lemma ChangeOneIs(s: seq<Rank>, phase: nat, c: Change, lo: nat, r: Rank)
    requires Keeps(s, lo, phase) && lo <= phase
    ensures ChangeOne(s, phase, c).Err? <==> Clashes(s, c)
    ensures ChangeOne(s, phase, c).Ok? ==>
      && Keeps(ChangeOne(s, phase, c).table, lo, phase)
      && (r in ChangeOne(s, phase, c).table <==> ChangedTo(s, phase, c, r))
  {
    ChangeOneKeeps(s, phase, c, lo);
    if !Clashes(s, c) {
      var n := NewRank(c, phase);
      if r in s { InAddresses(s, r); }
      if c.addr !in Addresses(s) {
        if c.activated { AddHas(s, n, lo, r); }
      } else {
        WithoutKeeps(s, c.addr);
        WithoutWithin(s, c.addr, lo, phase);
        WithoutAddresses(s, c.addr);
        WithoutHas(s, c.addr, r);
        AddHas(Without(s, c.addr), n, lo, r);
      }
    }
  }

  /** No account is changed twice: the accounts of a block are a map. */
  predicate OneEach(cs: seq<Change>) { forall i, j :: 0 <= i < j < |cs| ==> cs[i].addr != cs[j].addr }

  /** The table after the changes of a block: who is not changed stays, and for the others the one change decides, as it
      would on the table before. */
  ghost predicate AllChangedTo(s: seq<Rank>, phase: nat, cs: seq<Change>, r: Rank) {
    if exists c :: c in cs && c.addr == r.address
    then exists c :: c in cs && c.addr == r.address && ChangedTo(s, phase, c, r)
    else r in s
  }

  ghost predicate SameAt(s: seq<Rank>, t: seq<Rank>, addr: nat) {
    forall r: Rank :: r.address == addr ==> (r in t <==> r in s)
  }

  lemma SameChange(s: seq<Rank>, t: seq<Rank>, phase: nat, c: Change, r: Rank)
    requires SameAt(s, t, c.addr) && r.address == c.addr
    ensures ChangedTo(t, phase, c, r) <==> ChangedTo(s, phase, c, r)
    ensures Clashes(t, c) <==> Clashes(s, c)
  {
    SamePresence(s, t, c);
    SamePresence(t, s, c);
  }

  lemma SamePresence(s: seq<Rank>, t: seq<Rank>, c: Change)
    requires SameAt(s, t, c.addr)
    ensures c.addr in Addresses(s) ==> c.addr in Addresses(t)
    ensures SameKey(s, c.addr, c.pubhash) ==> SameKey(t, c.addr, c.pubhash)
  {
    if c.addr in Addresses(s) {
      var i :| 0 <= i < |s| && s[i].address == c.addr;
      assert s[i] in t;
      InAddresses(t, s[i]);
    }
    if SameKey(s, c.addr, c.pubhash) {
      var i :| 0 <= i < |s| && s[i].address == c.addr && s[i].pubhash == c.pubhash;
      assert s[i] in t;
      var j :| 0 <= j < |t| && t[j] == s[i];
    }
  }

  ghost predicate NoClash(s: seq<Rank>, cs: seq<Change>) { forall c :: c in cs ==> !Clashes(s, c) }

  ghost predicate ChangesAre(s: seq<Rank>, phase: nat, cs: seq<Change>, t: seq<Rank>) {
    forall r :: r in t <==> AllChangedTo(s, phase, cs, r)
  }

  lemma Untouched(s: seq<Rank>, phase: nat, cs: seq<Change>, t: seq<Rank>, c: Change)
    requires ChangesAre(s, phase, cs, t) && OneEach(cs + [c])
    ensures SameAt(s, t, c.addr)
  {
    forall r: Rank | r.address == c.addr ensures r in t <==> r in s {
      forall d | d in cs ensures d.addr != c.addr {
        var i :| 0 <= i < |cs| && cs[i] == d;
        assert (cs + [c])[i] == d && (cs + [c])[|cs|] == c;
      }
      assert r in t <==> AllChangedTo(s, phase, cs, r);
    }
  }

  lemma LastChange(s: seq<Rank>, phase: nat, front: seq<Change>, c: Change, r: Rank)
    requires OneEach(front + [c])
    ensures AllChangedTo(s, phase, front + [c], r) <==>
      if r.address == c.addr then ChangedTo(s, phase, c, r) else AllChangedTo(s, phase, front, r)
  {
    var cs := front + [c];
    assert c in cs && forall d :: d in cs <==> d in front || d == c;
    forall d | d in front ensures d.addr != c.addr {
      var i :| 0 <= i < |front| && front[i] == d;
      assert cs[i] == d && cs[|front|] == c;
    }
  }

  lemma ChangeNext(s: seq<Rank>, phase: nat, front: seq<Change>, c: Change, lo: nat, t: seq<Rank>)
    requires OneEach(front + [c]) && Keeps(t, lo, phase) && lo <= phase && ChangesAre(s, phase, front, t)
    ensures ChangeOne(t, phase, c).Err? <==> Clashes(s, c)
    ensures ChangeOne(t, phase, c).Ok? ==> ChangesAre(s, phase, front + [c], ChangeOne(t, phase, c).table)
  {
    Untouched(s, phase, front, t, c);
    ChangeOneIs(t, phase, c, lo, NewRank(c, phase));
    SameChange(s, t, phase, c, NewRank(c, phase));
    if ChangeOne(t, phase, c).Ok? {
      var u := ChangeOne(t, phase, c).table;
      forall r ensures r in u <==> AllChangedTo(s, phase, front + [c], r) {
        ChangeOneIs(t, phase, c, lo, r);
        LastChange(s, phase, front, c, r);
        if r.address == c.addr { SameChange(s, t, phase, c, r); }
        assert r in t <==> AllChangedTo(s, phase, front, r);
      }
    }
  }

  lemma OneEachFront(front: seq<Change>, c: Change)
    requires OneEach(front + [c])
    ensures OneEach(front)
  {
    var cs := front + [c];
    assert forall i :: 0 <= i < |front| ==> front[i] == cs[i];
  }

  lemma NoClashNext(s: seq<Rank>, front: seq<Change>, c: Change)
    ensures NoClash(s, front + [c]) <==> NoClash(s, front) && !Clashes(s, c)
  {
    assert c in front + [c] && forall d :: d in front + [c] <==> d in front || d == c;
  }

  /** The changes of a block fail if and only if a created, active formulator is in the table already; otherwise each
      account joins, stays or leaves as its own change says. */
  lemma {:induction false} ChangeAllIs(s: seq<Rank>, phase: nat, cs: seq<Change>, lo: nat)
    requires Keeps(s, lo, phase) && lo <= phase && OneEach(cs)
    ensures ChangeAll(s, phase, cs).Ok? <==> NoClash(s, cs)
    ensures ChangeAll(s, phase, cs).Ok? ==> ChangesAre(s, phase, cs, ChangeAll(s, phase, cs).table)
  {
    if cs != [] {
      var front, c := cs[..|cs| - 1], cs[|cs| - 1];
      assert cs == front + [c];
      OneEachFront(front, c);
      ChangeAllIs(s, phase, front, lo);
      ChangeAllKeeps(s, phase, front, lo);
      NoClashNext(s, front, c);
      var r := ChangeAll(s, phase, front);
      if r.Ok? { ChangeNext(s, phase, front, c, lo, r.table); }
    }
  }

  lemma {:induction false} WithoutAllHas(s: seq<Rank>, gone: seq<nat>, r: Rank)
    ensures r in WithoutAll(s, gone) <==> r in s && r.address !in gone
  {
    if gone != [] {
      var front := gone[..|gone| - 1];
      WithoutAllHas(s, front, r);
      WithoutHas(WithoutAll(s, front), gone[|gone| - 1], r);
      assert gone == front + [gone[|gone| - 1]];
    }
  }

  // ---- the whole update ----

  /** The table after a block: limited, changed account by account, and without the deleted ones. */
  lemma UpdateIs(s: seq<Rank>, p: Policy, cs: seq<Change>, gone: seq<nat>, l: seq<Rank>, r: Rank)
    requires Table(s) && (p.NoPolicy? ==> Within(s, Smallest(s), Smallest(s) + 2)) && OneEach(cs)
    requires Limited(s, p) == Ok(l)
    ensures UpdateList(s, p, cs, gone) == Err(ExistAddress) <==> !NoClash(l, cs)
    ensures UpdateList(s, p, cs, gone).Ok? ==>
      (r in UpdateList(s, p, cs, gone).table <==> r.address !in gone && AllChangedTo(l, JoinPhase(s, p), cs, r))
  {
    LimitedKeeps(s, p);
    ChangeAllIs(l, JoinPhase(s, p), cs, Smallest(s));
    ChangeAllKeeps(l, JoinPhase(s, p), cs, Smallest(s));
    var changed := ChangeAll(l, JoinPhase(s, p), cs);
    if changed.Ok? { WithoutAllHas(changed.table, gone, r); }
  }

  // ---- the order does not matter ----

  lemma SortedUnique(s: seq<Rank>, t: seq<Rank>)
    requires Table(s) && Table(t) && forall r :: r in s <==> r in t
    ensures s == t
    decreases |s|
  {
    assert t == [] || t[0] in t;
    assert s == [] || s[0] in s;
    if s != [] {
      SameTop(s, t);
      TailTable(s);
      TailTable(t);
      forall r ensures r in s[1..] <==> r in t[1..] { TailHas(s, r); TailHas(t, r); }
      SortedUnique(s[1..], t[1..]);
    }
  }

  lemma TailHas(s: seq<Rank>, r: Rank)
    requires Table(s) && s != []
    ensures r in s[1..] <==> r in s && r != s[0]
  {
    assert s == [s[0]] + s[1..];
    if r in s[1..] {
      var i :| 0 <= i < |s[1..]| && s[1..][i] == r;
      assert s[i + 1] == r;
    }
  }

  lemma SameTop(s: seq<Rank>, t: seq<Rank>)
    requires Table(s) && Table(t) && s != [] && t != [] && forall r :: r in s <==> r in t
    ensures s[0] == t[0]
  {
    assert t[0] in s && s[0] in t;
    var i :| 0 <= i < |t| && t[i] == s[0];
    var j :| 0 <= j < |s| && s[j] == t[0];
    assert i > 0 ==> Less(t[0], s[0]);
    assert j > 0 ==> Less(s[0], t[0]);
  }

  /** In whatever order the changed and the deleted accounts are walked, every node gets the same table, or the same
      error. */
  lemma OrderFree(s: seq<Rank>, p: Policy, cs: seq<Change>, ds: seq<Change>, gone: seq<nat>, left: seq<nat>)
    requires Table(s) && (p.NoPolicy? ==> Within(s, Smallest(s), Smallest(s) + 2)) && OneEach(cs) && OneEach(ds)
    requires (forall c :: c in cs <==> c in ds) && forall a :: a in gone <==> a in left
    ensures UpdateList(s, p, cs, gone) == UpdateList(s, p, ds, left)
  {
    LimitedKeeps(s, p);
    var l, phase := Limited(s, p).table, JoinPhase(s, p);
    ChangeAllIs(l, phase, cs, Smallest(s));
    ChangeAllIs(l, phase, ds, Smallest(s));
    ChangeAllKeeps(l, phase, cs, Smallest(s));
    ChangeAllKeeps(l, phase, ds, Smallest(s));
    var a, b := ChangeAll(l, phase, cs), ChangeAll(l, phase, ds);
    if a.Ok? {
      WithoutAllKeeps(a.table, gone, Smallest(s), phase);
      WithoutAllKeeps(b.table, left, Smallest(s), phase);
      forall r ensures r in WithoutAll(a.table, gone) <==> r in WithoutAll(b.table, left) {
        WithoutAllHas(a.table, gone, r);
        WithoutAllHas(b.table, left, r);
        SameSpec(l, phase, cs, ds, r);
        assert (r in a.table <==> AllChangedTo(l, phase, cs, r)) && (r in b.table <==> AllChangedTo(l, phase, ds, r));
      }
      SortedUnique(WithoutAll(a.table, gone), WithoutAll(b.table, left));
    }
  }

  lemma SameSpec(s: seq<Rank>, phase: nat, cs: seq<Change>, ds: seq<Change>, r: Rank)
    requires forall c :: c in cs <==> c in ds
    ensures AllChangedTo(s, phase, cs, r) <==> AllChangedTo(s, phase, ds, r)
  {
  }
}
