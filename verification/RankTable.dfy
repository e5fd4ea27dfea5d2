/** The rank table as the node keeps it: rank objects, shared between a sorted list and a map, changed in place. */
module RankTable {
  import opened RankOrder
  import opened RankUpdate

  class Candidate {
    const address: nat
    const pubhash: nat
    var phase: nat
    var space: nat
    var score: nat

    ghost function Val(): Rank
      reads this
    {
      Rank(address, pubhash, phase, space)
    }

    /** The stored score is that of the other fields. */
    ghost predicate Valid()
      reads this
    {
      score == Score(Val())
    }

    constructor (address: nat, pubhash: nat, phase: nat, space: nat)
      ensures Valid() && Val() == Rank(address, pubhash, phase, space)
    {
      this.address, this.pubhash, this.phase, this.space := address, pubhash, phase, space;
      score := Score(Rank(address, pubhash, phase, space));
    }

    method Set(phase: nat, space: nat)
      modifies this
      ensures Valid() && Val() == old(Val()).(phase := phase, space := space)
    {
      this.phase, this.space := phase, space;
      score := Score(Rank(address, pubhash, phase, space));
    }

    method IsLess(b: Candidate) returns (less: bool)
      requires Valid() && b.Valid()
      ensures less == Less(Val(), b.Val())
    {
      less := score < b.score || (score == b.score && address < b.address);
    }
  }

  datatype Outcome = Done | Refused(code: Code)

  function OutcomeOf(r: Result): Outcome { if r.Ok? then Done else Refused(r.code) }

  /** `s` is what the candidates `cs` are worth, one by one. */
  ghost predicate Shows(cs: seq<Candidate>, s: seq<Rank>)
    reads cs
  {
    |s| == |cs| && forall i :: 0 <= i < |cs| ==> cs[i].Valid() && cs[i].Val() == s[i]
  }

  lemma PlaceIs(s: seq<Rank>, r: Rank, i: nat)
    requires i <= |s|
    requires forall k :: 0 <= k < i ==> !Less(r, s[k])
    requires i < |s| ==> Less(r, s[i])
    ensures i == Place(s, r)
  {
    PlaceSpec(s, r);
  }

  lemma NotLessBelow(s: seq<Rank>, r: Rank, h: nat)
    requires Sorted(s) && h < |s| && !Less(r, s[h])
    ensures forall k :: 0 <= k <= h ==> !Less(r, s[k])
  {
    forall k | 0 <= k < h ensures !Less(r, s[k]) {
      if Less(r, s[k]) { LessTrans(r, s[k], s[h]); }
    }
  }

  lemma LessAbove(s: seq<Rank>, r: Rank, h: nat)
    requires Sorted(s) && h < |s| && Less(r, s[h])
    ensures forall k :: h <= k < |s| ==> Less(r, s[k])
  {
    forall k | h < k < |s| ensures Less(r, s[k]) {
      LessTrans(r, s[h], s[k]);
    }
  }

  /** Binary search for the first candidate greater than `m`. */
  method Search(cs: seq<Candidate>, m: Candidate, ghost s: seq<Rank>) returns (idx: nat)
    requires Shows(cs, s) && m.Valid() && Sorted(s)
    ensures idx == Place(s, m.Val())
  {
    ghost var r := m.Val();
    var i, j := 0, |cs|;
    while i < j
      invariant 0 <= i <= j <= |cs|
      invariant forall k :: 0 <= k < i ==> !Less(r, s[k])
      invariant forall k :: j <= k < |s| ==> Less(r, s[k])
    {
      var h := (i + j) / 2;
      var less := m.IsLess(cs[h]);
      if !less {
        NotLessBelow(s, r, h);
        i := h + 1;
      } else {
        LessAbove(s, r, h);
        j := h;
      }
    }
    PlaceIs(s, r, i);
    idx := i;
  }

  /** The list after a candidate was put in at `idx`. */
  function PutIn(cs: seq<Candidate>, m: Candidate, idx: nat): seq<Candidate>
    requires idx <= |cs|
  {
    cs[..idx] + [m] + cs[idx..]
  }

  lemma ShowsPutIn(cs: seq<Candidate>, s: seq<Rank>, m: Candidate)
    requires Shows(cs, s) && m.Valid()
    ensures Shows(PutIn(cs, m, Place(s, m.Val())), Insert(s, m.Val()))
  {
    var idx := Place(s, m.Val());
    var t, u := PutIn(cs, m, idx), Insert(s, m.Val());
    forall k | 0 <= k < |t| ensures t[k].Valid() && t[k].Val() == u[k] {
      assert t[k] == if k < idx then cs[k] else if k == idx then m else cs[k - 1];
    }
  }

  lemma PutInMembers(cs: seq<Candidate>, m: Candidate, idx: nat)
    requires idx <= |cs|
    ensures forall c :: c in PutIn(cs, m, idx) <==> c == m || c in cs
  {
    assert cs == cs[..idx] + cs[idx..];
  }

  /** The map has the candidates by their addresses. */
  ghost predicate MapOf(cs: seq<Candidate>, m: map<nat, Candidate>) {
    && (forall c :: c in cs ==> c.address in m && m[c.address] == c)
    && (forall a :: a in m ==> m[a] in cs && m[a].address == a)
  }

  /** The map has exactly the addresses of the list. */
  lemma InMap(cs: seq<Candidate>, m: map<nat, Candidate>, s: seq<Rank>, a: nat)
    requires MapOf(cs, m) && Shows(cs, s)
    ensures a in m <==> a in Addresses(s)
  {
    if a in m {
      var i :| 0 <= i < |cs| && cs[i] == m[a];
      assert s[i].address == a;
    }
    if a in Addresses(s) {
      var i :| 0 <= i < |s| && s[i].address == a;
      assert cs[i] in cs;
    }
  }

  /** The candidates with other addresses, in their order. */
  method Filter(cs: seq<Candidate>, addr: nat, ghost s: seq<Rank>) returns (list: seq<Candidate>)
    requires Shows(cs, s)
    ensures Shows(list, Without(s, addr))
    ensures forall c :: c in list <==> c in cs && c.address != addr
  {
    list := [];
    for i := 0 to |cs|
      invariant Shows(list, Without(s[..i], addr))
      invariant forall c :: c in list <==> c in cs[..i] && c.address != addr
    {
      assert s[..i + 1] == s[..i] + [s[i]] && cs[..i + 1] == cs[..i] + [cs[i]];
      WithoutSnoc(s[..i], s[i], addr);
      if cs[i].address != addr {
        list := list + [cs[i]];
      }
    }
    assert cs[..|cs|] == cs && s[..|s|] == s;
  }

  lemma TailShows(cs: seq<Candidate>, s: seq<Rank>)
    requires Shows(cs, s) && UniqueAddresses(s) && cs != []
    ensures Shows(cs[1..], s[1..]) && cs[0] !in cs[1..] && cs == [cs[0]] + cs[1..]
  {
    var rest, tail := cs[1..], s[1..];
    assert forall i :: 0 <= i < |rest| ==> rest[i] == cs[i + 1] && tail[i] == s[i + 1];
  }

  lemma MapSame(cs: seq<Candidate>, cs': seq<Candidate>, m: map<nat, Candidate>)
    requires MapOf(cs, m) && forall c :: c in cs' <==> c in cs
    ensures MapOf(cs', m)
  {
  }

  class RankTable {
    var height: nat
    var candidates: seq<Candidate>
    var rankMap: map<nat, Candidate>
    /** What the list is worth. */
    ghost var view: seq<Rank>

    /** The list is sorted, no formulator is in it twice, and the map has the same objects by address. */
    ghost predicate Valid()
      reads this, candidates
    {
      Shows(candidates, view) && Table(view) && MapOf(candidates, rankMap)
    }

    constructor ()
      ensures Valid() && view == [] && height == 0
    {
      height, candidates, rankMap, view := 0, [], map[], [];
    }

    /** Adds a candidate, unless its phase is below the smallest or its address is there. */
    method AddRank(s: Candidate) returns (r: Outcome)
      requires Valid() && s.Valid() && s !in candidates
      modifies this`candidates, this`rankMap, this`view
      ensures Valid() && r == OutcomeOf(Add(old(view), s.Val()))
      ensures view == if r.Done? then Add(old(view), s.Val()).table else old(view)
      ensures forall c :: c in candidates ==> c == s || c in old(candidates)
    {
      if |candidates| > 0 && s.phase < candidates[0].phase { return Refused(InvalidPhase); }
      InMap(candidates, rankMap, view, s.address);
      if s.address in rankMap { return Refused(ExistAddress); }
      PutRank(s);
      r := Done;
    }

    method PutRank(s: Candidate)
      requires Valid() && s.Valid() && s !in candidates && s.address !in Addresses(view)
      modifies this`candidates, this`rankMap, this`view
      ensures Valid() && view == Insert(old(view), s.Val())
      ensures forall c :: c in candidates <==> c == s || c in old(candidates)
    {
      InsertKeeps(view, s.Val());
      InMap(candidates, rankMap, view, s.address);
      var idx := Search(candidates, s, view);
      ShowsPutIn(candidates, view, s);
      PutInMembers(candidates, s, idx);
      candidates := PutIn(candidates, s, idx);
      rankMap := rankMap[s.address := s];
      view := Insert(view, s.Val());
    }

    /** Removes a formulator, if it is there. */
    method RemoveRank(addr: nat)
      requires Valid()
      modifies this`candidates, this`rankMap, this`view
      ensures Valid() && view == Without(old(view), addr)
      ensures forall c :: c in candidates ==> c in old(candidates)
    {
      InMap(candidates, rankMap, view, addr);
      if addr !in rankMap {
        WithoutNone(view, addr);
        return;
      }
      WithoutKeeps(view, addr);
      rankMap := rankMap - {addr};
      candidates := Filter(candidates, addr, view);
      view := Without(view, addr);
    }

    /** Puts the changed top `m` where it now belongs among the others. */
    method PutTop(m: Candidate, rest: seq<Candidate>, ghost tail: seq<Rank>, ghost goal: seq<Rank>)
      requires candidates == [m] + rest && m.Valid() && Shows(rest, tail)
      requires Sorted(tail) && MapOf(candidates, rankMap) && goal == Insert(tail, m.Val()) && Table(goal)
      modifies this`candidates, this`view
      ensures Valid() && view == goal
      ensures forall c :: c in candidates <==> c in old(candidates)
    {
      var idx := Search(rest, m, tail);
      ShowsPutIn(rest, tail, m);
      PutInMembers(rest, m, idx);
      candidates := PutIn(rest, m, idx);
      view := goal;
      assert Shows(candidates, view);
      MapSame(old(candidates), candidates, rankMap);
    }

    /** The top takes another phase and hash and goes where it then belongs. */
    method Move(phase: nat, space: nat)
      requires Valid() && candidates != []
      modifies this`candidates, this`view, candidates[0]
      ensures Valid() && view == MoveTop(old(view), phase, space)
      ensures forall c :: c in candidates <==> c in old(candidates)
    {
      var m, rest := candidates[0], candidates[1..];
      MoveTopKeeps(view, phase, space);
      TailTable(view);
      TailShows(candidates, view);
      ghost var tail := view[1..];
      m.Set(phase, space);
      PutTop(m, rest, tail, Insert(tail, m.Val()));
    }

    method SkipTop()
      requires Valid() && candidates != []
      modifies this`candidates, this`view, candidates[0]
      ensures Valid() && view == Skip(old(view))
      ensures forall c :: c in candidates <==> c in old(candidates)
    {
      var phase, space := candidates[0].phase + 2, candidates[0].space;
      assert phase == view[0].phase + 2 && space == view[0].space;
      Move(phase, space);
    }

    /** Skips the first `timeouts` formulators: each goes two phases back. */
    method ForwardCandidates(timeouts: nat) returns (r: Outcome)
      requires Valid()
      modifies this`candidates, this`view, candidates
      ensures Valid() && (r.Refused? <==> timeouts >= |old(view)|) && (r.Refused? ==> r.code == ExceedCandidateCount)
      ensures view == if r.Done? then Forward(old(view), timeouts) else old(view)
      ensures forall c :: c in candidates <==> c in old(candidates)
    {
      if timeouts >= |candidates| { return Refused(ExceedCandidateCount); }
      ghost var goal := Forward(view, timeouts);
      var left := timeouts;
      while left > 0
        invariant Valid() && view != [] && Forward(view, left) == goal
        invariant forall c :: c in candidates <==> c in old(candidates)
      {
        left := left - 1;
        ghost var next := Skip(view);
        assert Forward(next, left) == goal by { ForwardStep(view, left + 1); }
        assert candidates[0] in candidates;
        SkipTop();
        assert view == next;
      }
      r := Done;
    }

    /** The top has made its blocks. */
    method ForwardOne(hash: nat)
      requires Valid() && candidates != []
      modifies this, candidates[0]
      ensures Valid() && view == ForwardTop(old(view), hash) && height == old(height) + 1
      ensures forall c :: c in candidates <==> c in old(candidates)
    {
      var phase := candidates[0].phase + 1;
      assert phase == view[0].phase + 1;
      Move(phase, hash);
      height := height + 1;
    }
  }

  lemma {:induction false} WithoutNone(s: seq<Rank>, addr: nat)
    requires addr !in Addresses(s)
    ensures Without(s, addr) == s
  {
    if s != [] {
      assert s[0].address in Addresses(s);
      forall i | 0 <= i < |s[1..]| ensures s[1..][i].address in Addresses(s) {
        assert s[1..][i] == s[i + 1];
      }
      WithoutNone(s[1..], addr);
    }
  }

  lemma {:induction false} WithoutSnoc(s: seq<Rank>, r: Rank, addr: nat)
    ensures Without(s + [r], addr) == Without(s, addr) + if r.address == addr then [] else [r]
  {
    if s == [] {
      assert s + [r] == [r];
    } else {
      WithoutSnoc(s[1..], r, addr);
      assert (s + [r])[1..] == s[1..] + [r];
    }
  }
}
