/** The order of formulators: ranks sorted by phase, hash and address, and how blocks move them. */
module RankOrder {
  const HASH_SPAN: nat := 0x1_0000_0000

  datatype Rank = Rank(address: nat, pubhash: nat, phase: nat, space: nat)

  /** The phase in the upper half, the first four bytes of the hash in the lower. */
  function Score(r: Rank): nat { r.phase * HASH_SPAN + r.space % HASH_SPAN }

  predicate Less(a: Rank, b: Rank) {
    Score(a) < Score(b) || (Score(a) == Score(b) && a.address < b.address)
  }

  /** Strictly ascending, hence no two equal ranks. */
  predicate Sorted(s: seq<Rank>) {
    forall i, j :: 0 <= i < j < |s| ==> Less(s[i], s[j])
  }

  predicate UniqueAddresses(s: seq<Rank>) {
    forall i, j :: 0 <= i < j < |s| ==> s[i].address != s[j].address
  }

  predicate Table(s: seq<Rank>) { Sorted(s) && UniqueAddresses(s) }

  function Addresses(s: seq<Rank>): set<nat> {
    set i | 0 <= i < |s| :: s[i].address
  }

  /** Where `r` goes: before the first rank that is greater. */
  function Place(s: seq<Rank>, r: Rank): (i: nat)
    ensures i <= |s|
  {
    if s == [] || Less(r, s[0]) then 0 else 1 + Place(s[1..], r)
  }

  lemma {:induction false} PlaceSpec(s: seq<Rank>, r: Rank)
    ensures var i := Place(s, r);
      (forall k :: 0 <= k < i ==> !Less(r, s[k])) && (i < |s| ==> Less(r, s[i]))
  {
    if s != [] && !Less(r, s[0]) {
      PlaceSpec(s[1..], r);
    }
  }

  function Insert(s: seq<Rank>, r: Rank): (t: seq<Rank>)
    ensures |t| == |s| + 1
  {
    var i := Place(s, r);
    s[..i] + [r] + s[i..]
  }

  function Without(s: seq<Rank>, addr: nat): seq<Rank> {
    if s == [] then []
    else (if s[0].address == addr then [] else [s[0]]) + Without(s[1..], addr)
  }

  /** The top with another phase and hash, put where it belongs. */
  function MoveTop(s: seq<Rank>, phase: nat, space: nat): (t: seq<Rank>)
    requires s != []
    ensures |t| == |s|
  {
    Insert(s[1..], s[0].(phase := phase, space := space))
  }

  /** The top missed its turn: it goes two phases back. */
  function Skip(s: seq<Rank>): (t: seq<Rank>)
    requires s != []
    ensures |t| == |s|
  {
    MoveTop(s, s[0].phase + 2, s[0].space)
  }

  /** Skipping `k` formulators that missed their turn: each time the top goes two phases back. */
  function Forward(s: seq<Rank>, k: nat): (t: seq<Rank>)
    ensures |t| == |s|
    decreases k
  {
    if k == 0 || s == [] then s else Forward(Skip(s), k - 1)
  }

  /** The top has made its blocks: one phase on, with a new hash. */
  function ForwardTop(s: seq<Rank>, hash: nat): seq<Rank>
    requires s != []
  {
    MoveTop(s, s[0].phase + 1, hash)
  }

  // ---- the table is kept ----

  lemma LessTrans(a: Rank, b: Rank, c: Rank)
    requires Less(a, b) && Less(b, c)
    ensures Less(a, c)
  {
  }

  lemma LessTotal(a: Rank, b: Rank)
    requires a.address != b.address
    ensures Less(a, b) || Less(b, a)
  {
  }

  lemma InsertTable(s: seq<Rank>, r: Rank)
    requires Table(s) && r.address !in Addresses(s)
    ensures Table(Insert(s, r))
  {
    var t := Insert(s, r);
    forall i, j | 0 <= i < j < |t| ensures Less(t[i], t[j]) && t[i].address != t[j].address {
      InsertPair(s, r, Place(s, r), i, j);
    }
  }

  lemma InsertKeeps(s: seq<Rank>, r: Rank)
    requires Table(s) && r.address !in Addresses(s)
    ensures Table(Insert(s, r)) && multiset(Insert(s, r)) == multiset(s) + multiset{r}
    ensures Addresses(Insert(s, r)) == Addresses(s) + {r.address}
  {
    InsertTable(s, r);
    var n := Place(s, r);
    assert s == s[..n] + s[n..];
    InsertAddresses(s, r, n);
  }

  lemma InsertPair(s: seq<Rank>, r: Rank, n: nat, i: nat, j: nat)
    requires Table(s) && r.address !in Addresses(s) && n == Place(s, r) && i < j <= |s|
    ensures var t := s[..n] + [r] + s[n..];
      Less(t[i], t[j]) && t[i].address != t[j].address
  {
    PlaceSpec(s, r);
    if j == n {
      assert s[i].address in Addresses(s);
      LessTotal(r, s[i]);
    } else if i == n {
      assert s[j - 1].address in Addresses(s);
      if n < j - 1 { LessTrans(r, s[n], s[j - 1]); }
    }
  }

  lemma InsertAddresses(s: seq<Rank>, r: Rank, n: nat)
    requires n <= |s|
    ensures Addresses(s[..n] + [r] + s[n..]) == Addresses(s) + {r.address}
  {
    var t := s[..n] + [r] + s[n..];
    assert t[n] == r;
    forall i | 0 <= i < |s| ensures s[i].address in Addresses(t) {
      assert t[if i < n then i else i + 1] == s[i];
    }
    forall i | 0 <= i < |t| ensures t[i].address in Addresses(s) + {r.address} {
      if i != n { assert t[i] == s[if i < n then i else i - 1]; }
    }
  }

  lemma TailTable(s: seq<Rank>)
    requires Table(s) && s != []
    ensures Table(s[1..]) && s[0].address !in Addresses(s[1..])
    ensures Addresses(s) == Addresses(s[1..]) + {s[0].address}
  {
    assert s == [s[0]] + s[1..];
    forall i | 0 <= i < |s| ensures s[i].address in Addresses(s[1..]) + {s[0].address} {
      if i > 0 { assert s[i] == s[1..][i - 1]; }
    }
    forall i | 0 <= i < |s[1..]| ensures s[1..][i].address in Addresses(s) {
      assert s[1..][i] == s[i + 1];
    }
  }

  /** Moving the top keeps the table and its formulators. */
  lemma MoveTopKeeps(s: seq<Rank>, phase: nat, space: nat)
    requires Table(s) && s != []
    ensures Table(MoveTop(s, phase, space)) && Addresses(MoveTop(s, phase, space)) == Addresses(s)
    ensures multiset(MoveTop(s, phase, space)) ==
      multiset(s) - multiset{s[0]} + multiset{s[0].(phase := phase, space := space)}
  {
    TailTable(s);
    InsertKeeps(s[1..], s[0].(phase := phase, space := space));
    assert s == [s[0]] + s[1..];
  }

  lemma ForwardStep(s: seq<Rank>, k: nat)
    requires k > 0 && s != []
    ensures Forward(s, k) == Forward(Skip(s), k - 1)
  {
  }

  lemma SkipKeeps(s: seq<Rank>)
    requires Table(s) && s != []
    ensures Table(Skip(s)) && Addresses(Skip(s)) == Addresses(s)
  {
    MoveTopKeeps(s, s[0].phase + 2, s[0].space);
  }

  lemma {:induction false} ForwardKeeps(s: seq<Rank>, k: nat, t: seq<Rank>)
    requires Table(s) && t == Forward(s, k)
    ensures Table(t) && Addresses(t) == Addresses(s)
    decreases k
  {
    if k > 0 && s != [] {
      SkipKeeps(s);
      ForwardKeeps(Skip(s), k - 1, t);
    }
  }

  // ---- who is on top after timeouts ----

  function Pushed(r: Rank): Rank { r.(phase := r.phase + 2) }

  /** One skip: a rank below the top moves up by one if the old top falls behind it, and keeps its place if not. */
  lemma SkipMoves(s: seq<Rank>, p: nat)
    requires Table(s) && 1 <= p < |s|
    ensures if Less(s[p], Pushed(s[0])) then Skip(s)[p - 1] == s[p] else Skip(s)[p] == s[p]
  {
    var m, rest := Pushed(s[0]), s[1..];
    var i := Place(rest, m);
    assert m == s[0].(phase := s[0].phase + 2, space := s[0].space);
    PlaceSpec(rest, m);
    if Less(s[p], m) {
      if i < p {
        assert rest[i] == s[i + 1];
        if i + 1 < p { LessTrans(s[i + 1], s[p], m); }
        assert false;
      }
    } else {
      LessTotal(s[p], m);
      assert rest[p - 1] == s[p];
    }
  }

  lemma NotTop(s: seq<Rank>, p: nat)
    requires Table(s) && 0 < p < |s|
    ensures s[0] != s[p]
  {
  }

  /** A rank with more than `j` ranks above it, or with `j` of which the first falls before it, is not on top
      after `j` skips. */
  lemma {:induction false} TooDeep(s: seq<Rank>, p: nat, x: Rank, j: nat)
    requires Table(s) && 0 < p < |s| && s[p] == x
    requires j < p || (j == p && !Less(x, Pushed(s[0])))
    ensures Forward(s, j)[0] != x
    decreases j
  {
    if j == 0 {
      NotTop(s, p);
    } else {
      SkipKeeps(s);
      SkipMoves(s, p);
      TooDeep(Skip(s), if Less(x, Pushed(s[0])) then p - 1 else p, x, j - 1);
    }
  }

  lemma PushedLess(a: Rank, b: Rank)
    requires Less(a, b)
    ensures Less(Pushed(a), Pushed(b))
  {
  }

  lemma {:induction false} ComesUp(s: seq<Rank>, k: nat)
    requires Table(s) && k < |s| && (k == 0 || Less(s[k], Pushed(s[0])))
    ensures Forward(s, k)[0] == s[k]
    decreases k
  {
    if k > 0 {
      SkipKeeps(s);
      SkipMoves(s, k);
      if k > 1 {
        LessTrans(s[1], s[k], Pushed(s[0]));
        SkipMoves(s, 1);
        PushedLess(s[0], s[1]);
        LessTrans(s[k], Pushed(s[0]), Pushed(s[1]));
      }
      ComesUp(Skip(s), k - 1);
    }
  }

  /** After a block that skipped `k` formulators the one that made it is on top, if and only if it is ahead of
      the first one skipped even when that has gone two phases back. */
  lemma TopAfterForward(s: seq<Rank>, k: nat, t: seq<Rank>)
    requires Table(s) && k < |s| && t == Forward(s, k)
    ensures t[0] == s[k] <==> k == 0 || Less(s[k], Pushed(s[0]))
  {
    if k == 0 || Less(s[k], Pushed(s[0])) {
      ComesUp(s, k);
    } else {
      TooDeep(s, k, s[k], k);
    }
  }

  /** Within one phase of the top the condition always holds. */
  lemma NearTopComesUp(s: seq<Rank>, k: nat)
    requires Table(s) && k < |s| && s[k].phase <= s[0].phase + 1
    ensures Forward(s, k)[0] == s[k]
  {
    ComesUp(s, k);
  }

  /** Two phases behind it may fail: the formulator that missed its turn is on top again. */
  lemma SkippedStaysOnTop()
    ensures var s := [Rank(1, 0, 1, 5), Rank(2, 0, 3, 9)];
      Table(s) && s[1].phase == s[0].phase + 2 && Forward(s, 1)[0].address == s[0].address
  {
    var s := [Rank(1, 0, 1, 5), Rank(2, 0, 3, 9)];
    assert s[1..] == [Rank(2, 0, 3, 9)];
    assert Forward(s, 1) == Forward(Skip(s), 0);
  }
}
