/** The consensus state of a node: its rank table and the number of blocks the top has made. */
module Consensus {
  import opened RankOrder
  import opened RankUpdate
  import opened RankTable

  /** With unique addresses the map tells whether a formulator has the given key. */
  lemma KeyInMap(cs: seq<Candidate>, m: map<nat, Candidate>, s: seq<Rank>, addr: nat, pubhash: nat)
    requires MapOf(cs, m) && Shows(cs, s) && UniqueAddresses(s) && addr in m
    ensures SameKey(s, addr, pubhash) <==> m[addr].pubhash == pubhash
  {
    var i :| 0 <= i < |cs| && cs[i] == m[addr];
    assert s[i].address == addr && s[i].pubhash == m[addr].pubhash;
  }

  lemma ChangeSnoc(s: seq<Rank>, phase: nat, cs: seq<Change>, k: nat)
    requires k < |cs|
    ensures var r := ChangeAll(s, phase, cs[..k]);
      ChangeAll(s, phase, cs[..k + 1]) == if r.Err? then r else ChangeOne(r.table, phase, cs[k])
  {
    assert cs[..k + 1][..k] == cs[..k];
  }

  lemma {:induction false} ChangeStops(s: seq<Rank>, phase: nat, cs: seq<Change>, k: nat)
    requires k <= |cs| && ChangeAll(s, phase, cs[..k]).Err?
    ensures ChangeAll(s, phase, cs) == ChangeAll(s, phase, cs[..k])
  {
    if k < |cs| {
      var front := cs[..|cs| - 1];
      assert front[..k] == cs[..k];
      ChangeStops(s, phase, front, k);
    } else {
      assert cs[..k] == cs;
    }
  }

  lemma ClampSnoc(s: seq<Rank>, list: seq<Rank>, max: nat, k: nat)
    requires k < |list|
    ensures var r := Clamp(s, list[..k], max);
      Clamp(s, list[..k + 1], max) ==
        if r.Err? || list[k].phase <= max then r else Add(Without(r.table, list[k].address), list[k].(phase := max))
  {
    assert list[..k + 1][..k] == list[..k];
  }

  class Consensus {
    const rt: RankTable
    var blocks: nat
    const max: nat

    ghost predicate Valid()
      reads this, rt, rt.candidates
    {
      rt.Valid()
    }

    constructor (max: nat)
      ensures Valid() && fresh(rt) && rt.view == [] && blocks == 0 && this.max == max
    {
      rt := new RankTable();
      blocks, this.max := 0, max;
    }

    /** Puts a new candidate into the table. */
    method Join(addr: nat, pubhash: nat, phase: nat, hash: nat) returns (r: Outcome)
      requires Valid()
      modifies rt
      ensures Valid() && r == OutcomeOf(Add(old(rt.view), Rank(addr, pubhash, phase, hash)))
      ensures rt.view == if r.Done? then Add(old(rt.view), Rank(addr, pubhash, phase, hash)).table else old(rt.view)
    {
      var c := new Candidate(addr, pubhash, phase, hash);
      r := rt.AddRank(c);
    }

    /** Removes a candidate and puts it in again with other data. */
    method Rejoin(addr: nat, pubhash: nat, phase: nat, hash: nat) returns (r: Outcome)
      requires Valid()
      modifies rt
      ensures Valid() && r == OutcomeOf(Add(Without(old(rt.view), addr), Rank(addr, pubhash, phase, hash)))
      ensures r.Done? ==> rt.view == Add(Without(old(rt.view), addr), Rank(addr, pubhash, phase, hash)).table
    {
      rt.RemoveRank(addr);
      r := Join(addr, pubhash, phase, hash);
    }

    /** What the block did to one formulator account. */
    method Apply(c: Change, phase: nat) returns (r: Outcome)
      requires Valid()
      modifies rt
      ensures Valid() && r == OutcomeOf(ChangeOne(old(rt.view), phase, c))
      ensures r.Done? ==> rt.view == ChangeOne(old(rt.view), phase, c).table
    {
      InMap(rt.candidates, rt.rankMap, rt.view, c.addr);
      r := Done;
      if c.created {
        if c.activated { r := Join(c.addr, c.pubhash, phase, c.hash); }
      } else if c.addr in rt.rankMap {
        if !c.activated {
          rt.RemoveRank(c.addr);
        } else {
          KeyInMap(rt.candidates, rt.rankMap, rt.view, c.addr, c.pubhash);
          if rt.rankMap[c.addr].pubhash != c.pubhash { r := Rejoin(c.addr, c.pubhash, phase, c.hash); }
        }
      } else if c.activated {
        r := Join(c.addr, c.pubhash, phase, c.hash);
      }
    }

    method ApplyAll(cs: seq<Change>, phase: nat) returns (r: Outcome)
      requires Valid()
      modifies rt
      ensures Valid() && r == OutcomeOf(ChangeAll(old(rt.view), phase, cs))
      ensures r.Done? ==> rt.view == ChangeAll(old(rt.view), phase, cs).table
    {
      ghost var s := rt.view;
      for k := 0 to |cs|
        invariant Valid() && ChangeAll(s, phase, cs[..k]) == Ok(rt.view)
      {
        ChangeSnoc(s, phase, cs, k);
        r := Apply(cs[k], phase);
        if r.Refused? {
          ChangeStops(s, phase, cs, k + 1);
          return;
        }
      }
      assert cs[..|cs|] == cs;
      r := Done;
    }

    method RemoveAll(gone: seq<nat>)
      requires Valid()
      modifies rt
      ensures Valid() && rt.view == WithoutAll(old(rt.view), gone)
    {
      ghost var s := rt.view;
      for k := 0 to |gone|
        invariant Valid() && rt.view == WithoutAll(s, gone[..k])
      {
        assert gone[..k + 1][..k] == gone[..k];
        rt.RemoveRank(gone[k]);
      }
      assert gone[..|gone|] == gone;
    }

    /** A copy of the ranks. */
    method Candidates() returns (list: seq<Rank>)
      requires Valid()
      ensures list == rt.view
    {
      list := [];
      for i := 0 to |rt.candidates|
        invariant list == rt.view[..i]
      {
        var c := rt.candidates[i];
        list := list + [Rank(c.address, c.pubhash, c.phase, c.space)];
      }
    }

    method ClampAll(limit: nat) returns (r: Outcome)
      requires Valid() && rt.view != [] && rt.view[0].phase <= limit
      modifies rt
      ensures Valid() && r.Done? && Clamp(old(rt.view), old(rt.view), limit) == Ok(rt.view)
    {
      ghost var s := rt.view;
      var list := Candidates();
      r := Done;
      for k := 0 to |list|
        invariant Valid() && r.Done? && Clamp(s, list[..k], limit) == Ok(rt.view)
      {
        ClampSnoc(s, list, limit, k);
        ClampSteps(s, k + 1, limit);
        if list[k].phase > limit {
          r := Rejoin(list[k].address, list[k].pubhash, limit, list[k].space);
        }
      }
      assert list[..|list|] == list;
    }

    /** The phase of newcomers, and ranks brought back that are too far ahead. */
    method Limit(p: Policy) returns (phase: nat)
      requires Valid()
      modifies rt
      ensures Valid() && phase == JoinPhase(old(rt.view), p) && Limited(old(rt.view), p) == Ok(rt.view)
    {
      ghost var s := rt.view;
      SortedWithin(s);
      var n := |rt.candidates|;
      var small := if n == 0 then 0 else rt.candidates[0].phase;
      var large := if n == 0 then 0 else rt.candidates[n - 1].phase;
      phase := small + 2;
      if p.MaxDiff? {
        phase := large + 1;
        if p.diff != 0 {
          var most := small + p.diff;
          if phase > most { phase := most; }
          if large > most { var _ := ClampAll(most); }
        }
      }
    }

    /** Brings the table in line with the formulator accounts of a block. */
    method UpdateFormulatorList(p: Policy, cs: seq<Change>, gone: seq<nat>) returns (r: Outcome)
      requires Valid()
      modifies rt
      ensures Valid() && r == OutcomeOf(UpdateList(old(rt.view), p, cs, gone))
      ensures r.Done? ==> rt.view == UpdateList(old(rt.view), p, cs, gone).table
    {
      var phase := Limit(p);
      r := ApplyAll(cs, phase);
      if r.Refused? { return; }
      RemoveAll(gone);
      if |rt.candidates| == 0 { return Refused(InsufficientCandidateCount); }
      r := Done;
    }

    /** One more block of the top, which may have been its last. */
    method CountBlock(hash: nat)
      requires Valid() && rt.candidates != []
      modifies this`blocks, rt, rt.candidates
      ensures Valid() && State(rt.view, blocks) == Counted(old(rt.view), old(blocks), max, hash)
    {
      blocks := blocks + 1;
      if blocks >= max {
        assert rt.candidates[0] in rt.candidates;
        rt.ForwardOne(hash);
        blocks := 0;
      }
    }

    /** The formulators that missed their turn, and the block itself. */
    method MoveOn(i: Input) returns (r: Outcome)
      requires Valid() && rt.candidates != []
      modifies this`blocks, rt, rt.candidates
      ensures Valid() && (r.Refused? <==> i.timeouts > 0 && i.timeouts >= |old(rt.view)|)
      ensures r.Refused? ==> r.code == ExceedCandidateCount
      ensures r.Done? ==> State(rt.view, blocks) == Moved(old(rt.view), old(blocks), max, i)
    {
      r := Done;
      if i.timeouts > 0 {
        r := rt.ForwardCandidates(i.timeouts);
        if r.Refused? { return; }
        blocks := 0;
      }
      CountBlock(i.hash);
    }

    /** Called when a block is saved: counts it, moves the table on and brings it in line with the accounts. */
    method OnSaveData(i: Input, p: Policy) returns (r: Outcome)
      requires Valid() && rt.candidates != []
      modifies this`blocks, rt, rt.candidates
      ensures Valid()
      ensures var saved := Save(State(old(rt.view), old(blocks)), max, p, i);
        if r.Done? then saved == Saved(State(rt.view, blocks)) else saved == Failed(r.code)
    {
      r := MoveOn(i);
      if r.Refused? { return; }
      r := UpdateFormulatorList(p, i.changes, i.gone);
    }
  }
}
