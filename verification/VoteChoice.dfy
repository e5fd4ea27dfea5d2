/** What an observer chooses from the acknowledgements, whatever the order it walks them in, and
    what it assembles from the votes. */
module VoteChoice {
  import opened Options
  import opened ObserverTypes
  import opened ObserverRound
  import opened Agreement

  // ---- the chosen acknowledgement ----

  lemma {:induction false} ChosenStops(acks: map<Key, Ack>, order: seq<Key>, quorum: nat, i: nat)
    ensures ChooseAck(acks, order, quorum, i).Some? <==> exists j :: i <= j && StopsAt(acks, order, quorum, j)
    ensures ChooseAck(acks, order, quorum, i).Some? ==>
              exists j :: i <= j && StopsAt(acks, order, quorum, j)
                          && ChooseAck(acks, order, quorum, i).value == acks[order[j]]
    decreases |order| - i
  {
    if i < |order| && !StopsAt(acks, order, quorum, i) {
      ChosenStops(acks, order, quorum, i + 1);
    }
  }

  /** Whatever the order of the walk, the chosen acknowledgement is one of those received, and a
      quorum of senders back its timeout count, and a quorum its chosen observer. */
  lemma ChoiceHasQuorum(acks: map<Key, Ack>, order: seq<Key>, quorum: nat)
    requires ChooseAck(acks, order, quorum, 0).Some?
    ensures var a := ChooseAck(acks, order, quorum, 0).value;
      && (exists k :: k in acks && acks[k] == a)
      && |TimeoutBackers(acks, acks.Keys, a.timeout)| >= quorum
      && |ChosenBackers(acks, acks.Keys, a.chosen)| >= quorum
  {
    var a := ChooseAck(acks, order, quorum, 0).value;
    ChosenStops(acks, order, quorum, 0);
    var j :| 0 <= j && StopsAt(acks, order, quorum, j) && a == acks[order[j]];
    var seen := Seen(order, j + 1);
    SubsetSize(TimeoutBackers(acks, seen, a.timeout), TimeoutBackers(acks, acks.Keys, a.timeout));
    SubsetSize(ChosenBackers(acks, seen, a.chosen), ChosenBackers(acks, acks.Keys, a.chosen));
  }

  ghost predicate Within(acks: map<Key, Ack>, fixed: map<Key, Ack>) {
    forall k :: k in acks ==> k in fixed && acks[k].timeout == fixed[k].timeout && acks[k].chosen == fixed[k].chosen
  }

  /** Every acknowledgement passed the check against the chain, as `AckCode` demands. */
  ghost predicate AllChecked(cfg: Config, chain: seq<Block>, acks: map<Key, Ack>) {
    forall k :: k in acks ==>
      CheckRound(cfg, chain, acks[k].chainID, acks[k].lastHash, acks[k].timeout, acks[k].formulator,
        acks[k].formulatorKey) == Ok
  }

  /** When each observer acknowledges one timeout count and one observer, any two observers on the
      same chain that choose, from whatever subsets and in whatever orders, choose the same ones,
      and so the same formulator. */
  lemma ChoicesAgree(cfg: Config, chain: seq<Block>, fixed: map<Key, Ack>,
                     acks1: map<Key, Ack>, order1: seq<Key>, acks2: map<Key, Ack>, order2: seq<Key>)
    requires fixed.Keys <= cfg.keys && Within(acks1, fixed) && Within(acks2, fixed)
    requires AllChecked(cfg, chain, acks1) && AllChecked(cfg, chain, acks2)
    requires ChooseAck(acks1, order1, Majority(cfg), 0).Some? && ChooseAck(acks2, order2, Majority(cfg), 0).Some?
    ensures var a := ChooseAck(acks1, order1, Majority(cfg), 0).value;
      var b := ChooseAck(acks2, order2, Majority(cfg), 0).value;
      && a.timeout == b.timeout && a.chosen == b.chosen
      && a.formulator == b.formulator && a.formulatorKey == b.formulatorKey
  {
    var a := ChooseAck(acks1, order1, Majority(cfg), 0).value;
    var b := ChooseAck(acks2, order2, Majority(cfg), 0).value;
    ChoiceHasQuorum(acks1, order1, Majority(cfg));
    ChoiceHasQuorum(acks2, order2, Majority(cfg));
    var k := QuorumsMeet(cfg.keys, TimeoutBackers(acks1, acks1.Keys, a.timeout),
      TimeoutBackers(acks2, acks2.Keys, b.timeout));
    var l := QuorumsMeet(cfg.keys, ChosenBackers(acks1, acks1.Keys, a.chosen),
      ChosenBackers(acks2, acks2.Keys, b.chosen));
  }

  // ---- when the order of the walk matters ----

  /** Those who name both this timeout count and this observer. */
  function BothBackers(acks: map<Key, Ack>, t: nat, c: Key): set<Key> {
    TimeoutBackers(acks, acks.Keys, t) * ChosenBackers(acks, acks.Keys, c)
  }

  lemma {:induction false} MakeOrder(keys: set<Key>) returns (order: seq<Key>)
    ensures IsOrder(order, keys)
  {
    if keys == {} {
      order := [];
    } else {
      var k :| k in keys;
      order := MakeOrder(keys - {k});
      order := order + [k];
    }
  }

  /** An order that walks `first` before the others. */
  lemma MakeOrderFrom(first: set<Key>, rest: set<Key>) returns (order: seq<Key>, n: nat)
    requires first !! rest
    ensures IsOrder(order, first + rest) && n <= |order|
    ensures forall i :: 0 <= i < |order| ==> (order[i] in first <==> i < n)
  {
    var a := MakeOrder(first);
    var b := MakeOrder(rest);
    order, n := a + b, |a|;
    assert forall i :: 0 <= i < |a| ==> a[i] in first;
    assert forall i :: 0 <= i < |b| ==> b[i] in rest;
    forall k | k in first + rest ensures k in order {
      if k in first { assert k in a; } else { assert k in b; }
    }
  }

  /** The last place at which the order visits `some`. */
  lemma {:induction false} LastVisit(order: seq<Key>, some: set<Key>, k: Key, n: nat) returns (j: nat)
    requires k in some && n <= |order| && k in order[..n]
    ensures j < n && order[j] in some && forall i :: j < i < n ==> order[i] !in some
  {
    if order[n - 1] in some {
      j := n - 1;
    } else {
      assert order[..n] == order[..n - 1] + [order[n - 1]];
      j := LastVisit(order, some, k, n - 1);
    }
  }

  lemma AllSeen(order: seq<Key>, keys: set<Key>, some: set<Key>, j: nat)
    requires IsOrder(order, keys) && some <= keys && j < |order| && forall i :: j < i < |order| ==> order[i] !in some
    ensures some <= Seen(order, j + 1)
  {
    forall k | k in some ensures k in order[..j + 1] {
      var i :| 0 <= i < |order| && order[i] == k;
      assert order[..j + 1][i] == k;
    }
  }

  lemma BothChoose(acks: map<Key, Ack>, order: seq<Key>, quorum: nat, t: nat, c: Key)
    requires IsOrder(order, acks.Keys) && quorum > 0 && |BothBackers(acks, t, c)| >= quorum
    ensures ChooseAck(acks, order, quorum, 0).Some?
  {
    var both := BothBackers(acks, t, c);
    var k :| k in both;
    assert k in order && order[..|order|] == order;
    var j := LastVisit(order, both, k, |order|);
    AllSeen(order, acks.Keys, both, j);
    var seen := Seen(order, j + 1);
    SubsetSize(both, TimeoutBackers(acks, seen, t));
    SubsetSize(both, ChosenBackers(acks, seen, c));
    assert StopsAt(acks, order, quorum, j);
    ChosenStops(acks, order, quorum, 0);
  }

  /** Of two timeout counts, and of two observers, at most one has a majority. */
  lemma OneMajority(cfg: Config, acks: map<Key, Ack>, seen: set<Key>, t: nat, c: Key, a: Ack)
    requires acks.Keys <= cfg.keys
    requires |TimeoutBackers(acks, acks.Keys, t)| >= Majority(cfg)
    requires |ChosenBackers(acks, acks.Keys, c)| >= Majority(cfg)
    requires |TimeoutBackers(acks, seen, a.timeout)| >= Majority(cfg)
    requires |ChosenBackers(acks, seen, a.chosen)| >= Majority(cfg)
    ensures a.timeout == t && a.chosen == c
  {
    var k := QuorumsMeet(cfg.keys, TimeoutBackers(acks, acks.Keys, t), TimeoutBackers(acks, seen, a.timeout));
    var l := QuorumsMeet(cfg.keys, ChosenBackers(acks, acks.Keys, c), ChosenBackers(acks, seen, a.chosen));
  }

  /** Those who name both first: no walk stops among them, nor behind them. */
  lemma NeverStops(cfg: Config, acks: map<Key, Ack>, order: seq<Key>, n: nat, t: nat, c: Key, j: nat)
    requires acks.Keys <= cfg.keys && n <= |order|
    requires |TimeoutBackers(acks, acks.Keys, t)| >= Majority(cfg)
    requires |ChosenBackers(acks, acks.Keys, c)| >= Majority(cfg)
    requires |BothBackers(acks, t, c)| < Majority(cfg)
    requires forall i :: 0 <= i < |order| ==> (order[i] in BothBackers(acks, t, c) <==> i < n)
    ensures !StopsAt(acks, order, Majority(cfg), j)
  {
    if StopsAt(acks, order, Majority(cfg), j) {
      var a, seen := acks[order[j]], Seen(order, j + 1);
      OneMajority(cfg, acks, seen, t, c, a);
      assert order[j] in BothBackers(acks, t, c);
      assert seen <= BothBackers(acks, t, c);
      SubsetSize(TimeoutBackers(acks, seen, t), BothBackers(acks, t, c));
      assert false;
    }
  }

  ghost predicate Majorities(cfg: Config, acks: map<Key, Ack>, t: nat, c: Key) {
    |TimeoutBackers(acks, acks.Keys, t)| >= Majority(cfg) && |ChosenBackers(acks, acks.Keys, c)| >= Majority(cfg)
  }

  ghost predicate Chooses(cfg: Config, acks: map<Key, Ack>, order: seq<Key>) {
    ChooseAck(acks, order, Majority(cfg), 0).Some?
  }

  lemma MissingOrder(cfg: Config, acks: map<Key, Ack>) returns (order: seq<Key>)
    requires acks.Keys <= cfg.keys && forall t, c :: |BothBackers(acks, t, c)| < Majority(cfg)
    ensures IsOrder(order, acks.Keys) && !Chooses(cfg, acks, order)
  {
    if t, c :| Majorities(cfg, acks, t, c) {
      var both := BothBackers(acks, t, c);
      var n;
      order, n := MakeOrderFrom(both, acks.Keys - both);
      assert both + (acks.Keys - both) == acks.Keys;
      forall j ensures !StopsAt(acks, order, Majority(cfg), j) {
        NeverStops(cfg, acks, order, n, t, c, j);
      }
      ChosenStops(acks, order, Majority(cfg), 0);
    } else {
      order := MakeOrder(acks.Keys);
      if Chooses(cfg, acks, order) {
        ChoiceHasQuorum(acks, order, Majority(cfg));
        var a := ChooseAck(acks, order, Majority(cfg), 0).value;
        assert Majorities(cfg, acks, a.timeout, a.chosen);
      }
    }
  }

  /** Every walk over the acknowledgements chooses one if and only if a majority of senders name both the same timeout
      count and the same observer. */
  lemma AlwaysChoosesIff(cfg: Config, acks: map<Key, Ack>)
    requires acks.Keys <= cfg.keys
    ensures (forall order :: IsOrder(order, acks.Keys) ==> Chooses(cfg, acks, order))
       <==> exists t, c :: |BothBackers(acks, t, c)| >= Majority(cfg)
  {
    if t, c :| |BothBackers(acks, t, c)| >= Majority(cfg) {
      forall order | IsOrder(order, acks.Keys) ensures Chooses(cfg, acks, order) {
        BothChoose(acks, order, Majority(cfg), t, c);
      }
    } else {
      var order := MissingOrder(cfg, acks);
    }
  }

  /** Some walk chooses one if and only if a majority name the same timeout count and a majority, perhaps another, the
      same observer. */
  lemma SomeChoosesIff(cfg: Config, acks: map<Key, Ack>)
    requires acks.Keys <= cfg.keys
    ensures (exists order :: IsOrder(order, acks.Keys) && Chooses(cfg, acks, order))
       <==> exists t, c :: Majorities(cfg, acks, t, c)
  {
    if t, c :| Majorities(cfg, acks, t, c) {
      var k := QuorumsMeet(cfg.keys, TimeoutBackers(acks, acks.Keys, t), ChosenBackers(acks, acks.Keys, c));
      var order, n := MakeOrderFrom(acks.Keys - {k}, {k});
      assert acks.Keys - {k} + {k} == acks.Keys;
      LastStops(cfg, acks, order, k, t, c);
    }
    if order :| IsOrder(order, acks.Keys) && Chooses(cfg, acks, order) {
      ChoiceHasQuorum(acks, order, Majority(cfg));
      var a := ChooseAck(acks, order, Majority(cfg), 0).value;
      assert Majorities(cfg, acks, a.timeout, a.chosen);
    }
  }

  lemma LastStops(cfg: Config, acks: map<Key, Ack>, order: seq<Key>, k: Key, t: nat, c: Key)
    requires IsOrder(order, acks.Keys) && k in acks && acks[k].timeout == t && acks[k].chosen == c
    requires Majorities(cfg, acks, t, c) && forall i :: 0 <= i < |order| && order[i] != k ==> i < |order| - 1
    ensures Chooses(cfg, acks, order)
  {
    var j := |order| - 1;
    assert k in order;
    assert order[j] == k && order[..j + 1] == order;
    assert Seen(order, j + 1) == acks.Keys;
    assert StopsAt(acks, order, Majority(cfg), j);
    ChosenStops(acks, order, Majority(cfg), 0);
  }

  ghost function FourAcks(a: Ack, b: Ack, c: Ack): map<Key, Ack> { map[0 := a, 1 := a, 2 := b, 3 := c] }

  ghost predicate Split(a: Ack, b: Ack, c: Ack) {
    a.timeout == b.timeout == 0 && c.timeout == 1 && a.chosen == c.chosen == 0 && b.chosen == 1
  }

  /** The order of the walk decides whether anything is chosen: of these four acknowledgements of
      five observers a majority agree on a timeout count and a majority on an observer, and walked
      in one order they give no choice, in another they do. */
  lemma OrderDecides(a: Ack, b: Ack, c: Ack)
    requires Split(a, b, c)
    ensures IsOrder([0, 1, 2, 3], FourAcks(a, b, c).Keys) && IsOrder([2, 3, 0, 1], FourAcks(a, b, c).Keys)
    ensures ChooseAck(FourAcks(a, b, c), [0, 1, 2, 3], 3, 0) == None
    ensures ChooseAck(FourAcks(a, b, c), [2, 3, 0, 1], 3, 0) == Some(a)
  {
    OrderMisses(a, b, c);
    OrderFinds(a, b, c);
  }

  lemma OrderMisses(a: Ack, b: Ack, c: Ack)
    requires Split(a, b, c)
    ensures ChooseAck(FourAcks(a, b, c), [0, 1, 2, 3], 3, 0) == None
  {
    var acks := FourAcks(a, b, c);
    var p := [0, 1, 2, 3];
    assert p[..1] == [0] && p[..2] == [0, 1] && p[..3] == [0, 1, 2] && p[..4] == p;
    assert Seen(p, 1) == {0} && Seen(p, 2) == {0, 1} && Seen(p, 3) == {0, 1, 2} && Seen(p, 4) == {0, 1, 2, 3};
    assert TimeoutBackers(acks, {0}, 0) == {0} && TimeoutBackers(acks, {0, 1}, 0) == {0, 1};
    assert ChosenBackers(acks, {0, 1, 2}, 1) == {2} && TimeoutBackers(acks, {0, 1, 2, 3}, 1) == {3};
    assert ChooseAck(acks, p, 3, 3) == None && ChooseAck(acks, p, 3, 2) == None && ChooseAck(acks, p, 3, 1) == None;
  }

  lemma OrderFinds(a: Ack, b: Ack, c: Ack)
    requires Split(a, b, c)
    ensures ChooseAck(FourAcks(a, b, c), [2, 3, 0, 1], 3, 0) == Some(a)
  {
    var acks := FourAcks(a, b, c);
    var q := [2, 3, 0, 1];
    assert q[..1] == [2] && q[..2] == [2, 3] && q[..3] == [2, 3, 0] && q[..4] == q;
    assert Seen(q, 1) == {2} && Seen(q, 2) == {2, 3} && Seen(q, 3) == {2, 3, 0} && Seen(q, 4) == {0, 1, 2, 3};
    assert TimeoutBackers(acks, {2}, 0) == {2} && TimeoutBackers(acks, {2, 3}, 1) == {3};
    assert TimeoutBackers(acks, {2, 3, 0}, 0) == {0, 2} && TimeoutBackers(acks, {0, 1, 2, 3}, 0) == {0, 1, 2};
    assert ChosenBackers(acks, {0, 1, 2, 3}, 0) == {0, 1, 3};
    assert ChooseAck(acks, q, 3, 3) == Some(a) && ChooseAck(acks, q, 3, 2) == Some(a);
    assert ChooseAck(acks, q, 3, 1) == Some(a);
  }

  // ---- the assembled block ----

  lemma {:induction false} OrderSize(order: seq<Key>, keys: set<Key>)
    requires IsOrder(order, keys)
    ensures |order| == |keys|
  {
    if order != [] {
      var k := order[|order| - 1];
      assert forall i :: 0 <= i < |order| - 1 ==> order[..|order| - 1][i] == order[i];
      OrderSize(order[..|order| - 1], keys - {k});
    }
  }

  ghost predicate OneGenSig(br: BlockRound) {
    br.gen.Some? && forall k :: k in br.votes ==> br.votes[k].genSig == br.gen.value.genSig
  }

  /** The observers' part of an assembled block is a majority over one payload exactly when the
      votes carry the generator's signature that the block carries. */
  lemma VotesAreMajority(cfg: Config, br: BlockRound, order: seq<Key>, signed: set<Signature>)
    requires br.gen.Some? && VotesSigned(cfg, signed, br) && IsOrder(order, br.votes.Keys)
    requires |br.votes| == Majority(cfg)
    ensures |AssembleSigs(br, order)| == |cfg.keys| / 2 + 2
    ensures SignedByMajority(OfBlockSign(br.gen.value.block.header, br.gen.value.genSig),
      AssembleSigs(br, order)[1..], cfg.keys)
            <==> OneGenSig(br)
  {
    OrderSize(order, br.votes.Keys);
    var sigs := AssembleSigs(br, order)[1..];
    assert forall i :: 0 <= i < |order| ==> sigs[i] == br.votes[order[i]].obSig;
    if SignedByMajority(OfBlockSign(br.gen.value.block.header, br.gen.value.genSig), sigs, cfg.keys) {
      forall k | k in br.votes ensures br.votes[k].genSig == br.gen.value.genSig {
        var i :| 0 <= i < |order| && order[i] == k;
        assert sigs[i].payload == OfBlockSign(br.gen.value.block.header, br.gen.value.genSig);
      }
    }
  }

  /** The rank table names the generator of the header, and the signature is that generator's. */
  ghost predicate RightGenerator(cfg: Config, chain: seq<Block>, gen: BlockGen) {
    && CheckTop(cfg, chain, gen.block.header) == Ok
    && gen.genSig.payload == OfHeader(gen.block.header)
    && gen.genSig.signer == TopRank(cfg, chain, gen.block.header.timeoutCount.value).value.publicHash
  }

  lemma AssembledValid(cfg: Config, chain: seq<Block>, br: BlockRound, order: seq<Key>, signed: set<Signature>)
    requires br.gen.Some? && VotesSigned(cfg, signed, br) && IsOrder(order, br.votes.Keys)
    requires |br.votes| == Majority(cfg) && RightGenerator(cfg, chain, br.gen.value)
    ensures ValidSignatures(cfg, chain, Assemble(br, order)) <==> OneGenSig(br)
  {
    VotesAreMajority(cfg, br, order, signed);
  }

  lemma AcceptedVote(cfg: Config, ob: Observer, from: Key, v: BlockVote, sig: Signature)
    requires RoundInv(ob) && BlockVoteCode(cfg, ob, from, v, sig) == Ok
    ensures VoteLands(ob.round, v.header.height) && v.header == ob.round.blocks[v.header.height].gen.value.block.header
    ensures ValidHeader(cfg, ob.chain, v.header)
    ensures RightGenerator(cfg, ob.chain, ob.round.blocks[v.header.height].gen.value)
  {
  }

  lemma AcceptedIsNew(cfg: Config, ob: Observer, from: Key, v: BlockVote, sig: Signature)
    requires BlockVoteCode(cfg, ob, from, v, sig) == Ok
    ensures from in cfg.keys && from !in ob.round.blocks[v.header.height].votes
    ensures v.obSig.signer == from && v.obSig.payload == OfBlockSign(v.header, v.genSig)
  {
  }

  lemma OneMore<K, V>(m: map<K, V>, k: K, v: V)
    requires k !in m
    ensures |m[k := v]| == |m| + 1 && m[k := v].Keys == m.Keys + {k}
  {
  }

  /** A new vote joins the others, signed. */
  lemma VoteJoins(cfg: Config, from: Key, v: BlockVote, signed: set<Signature>, was: BlockRound, br: BlockRound)
    requires VotesSigned(cfg, signed, was) && was.gen.Some? && was.gen.value.block.header == v.header
    requires from in cfg.keys && from !in was.votes && v.obSig in signed
    requires v.obSig.signer == from && v.obSig.payload == OfBlockSign(v.header, v.genSig)
    requires br == was.(votes := was.votes[from := v])
    ensures VotesSigned(cfg, signed, br)
  {
  }

  lemma VotedIs(env: Env, ob: Observer, from: Key, v: BlockVote, voted: Observer, br: BlockRound)
    requires RoundInv(ob) && VoteLands(ob.round, v.header.height) && voted == WithBlockVote(ob, from, v)
    requires br == ob.round.blocks[v.header.height].(votes := ob.round.blocks[v.header.height].votes[from := v])
    ensures VoteLands(voted.round, v.header.height) && voted.round.blocks[v.header.height] == br
    ensures VotedBlock(env, voted) == Assemble(br, env.order)
  {
    VoteMoves(ob, from, v);
  }

  /** The vote that completes the first majority gives a block that passes the consensus check of
      every node on the same chain, exactly when all votes carry the same generator signature. */
  lemma FirstQuorum(cfg: Config, env: Env, ob: Observer, from: Key, v: BlockVote, sig: Signature,
                    signed: set<Signature>, voted: Observer)
    requires RoundInv(ob) && Evidence(cfg, ob, signed)
    requires BlockVoteCode(cfg, ob, from, v, sig) == Ok && Deliverable(cfg, signed, BlockVoteMessage(v, sig))
    requires |ob.round.blocks[v.header.height].votes| + 1 == Majority(cfg)
    requires IsOrder(env.order, ob.round.blocks[v.header.height].votes.Keys + {from})
    requires voted == WithBlockVote(ob, from, v)
    ensures VoteLands(voted.round, v.header.height) && ValidHeader(cfg, ob.chain, VotedBlock(env, voted).header)
    ensures ValidSignatures(cfg, ob.chain, VotedBlock(env, voted)) <==> OneGenSig(voted.round.blocks[v.header.height])
  {
    AcceptedVote(cfg, ob, from, v, sig);
    var was := ob.round.blocks[v.header.height];
    var br := was.(votes := was.votes[from := v]);
    AcceptedIsNew(cfg, ob, from, v, sig);
    assert v.obSig in Carried(BlockVoteMessage(v, sig));
    VoteJoins(cfg, from, v, signed, was, br);
    OneMore(was.votes, from, v);
    VotedIs(env, ob, from, v, voted, br);
    AssembledValid(cfg, ob.chain, br, env.order, signed);
  }

  /** A block assembled after the first majority, when connecting failed then, has too many
      signatures for anybody's check. */
  lemma LateQuorumFails(cfg: Config, env: Env, ob: Observer, chain: seq<Block>)
    requires VoteLands(ob.round, ob.round.target)
    requires IsOrder(env.order, ob.round.blocks[ob.round.target].votes.Keys)
    requires |ob.round.blocks[ob.round.target].votes| > Majority(cfg)
    ensures !ValidSignatures(cfg, chain, VotedBlock(env, ob))
  {
    OrderSize(env.order, ob.round.blocks[ob.round.target].votes.Keys);
  }
}
