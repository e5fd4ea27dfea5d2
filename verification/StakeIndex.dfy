/** The stakes at one formulator, with an index that allows going through them: each staker has a number, each
    number below the count has a staker, and removing a staker moves the last one to its number. */
module StakeIndex {
  import opened Sums

  type Addr = nat

  /** Only amounts above zero are stored. */
  datatype Index = Index(amounts: map<Addr, nat>, number: map<Addr, nat>, reverse: map<nat, Addr>, count: nat)

  function Empty(): Index { Index(map[], map[], map[], 0) }

  function Amount(x: Index, a: Addr): nat { Get(x.amounts, a) }

  /** Storing zero removes. */
  function Store(m: map<Addr, nat>, a: Addr, v: nat): map<Addr, nat> { if v == 0 then m - {a} else m[a := v] }

  function Add(x: Index, a: Addr, v: nat): Index {
    var y := if a in x.number then x
             else x.(number := x.number[a := x.count], reverse := x.reverse[x.count := a], count := x.count + 1);
    y.(amounts := Store(x.amounts, a, Amount(x, a) + v))
  }

  const NUMBERS: nat := 0x1_0000_0000

  /** Counts are 32 bits wide. */
  function Before(n: nat): nat { if n == 0 then NUMBERS - 1 else n - 1 }

  /** The staker leaves the index; the last one takes its number, or address zero if nobody has the last number. */
  function Unlist(x: Index, a: Addr): Index
    requires a in x.number
  {
    var n, last := x.number[a], Before(x.count);
    var y := if n == last then x
             else
               var swap := if last in x.reverse then x.reverse[last] else 0;
               x.(number := x.number[swap := n], reverse := x.reverse[n := swap]);
    Index(x.amounts, y.number - {a}, y.reverse - {last}, last)
  }

  datatype Result = Ok(index: Index) | MinusBalance

  function Sub(x: Index, a: Addr, v: nat): Result {
    if Amount(x, a) < v then MinusBalance
    else
      var left := Amount(x, a) - v;
      var y := if left == 0 && a in x.number then Unlist(x, a) else x;
      Ok(y.(amounts := Store(x.amounts, a, left)))
  }

  /** Numbers and stakers correspond one to one. */
  predicate Listed(x: Index) {
    && (forall a :: a in x.number ==> x.number[a] < x.count && x.number[a] in x.reverse && x.reverse[x.number[a]] == a)
    && (forall i :: i in x.reverse ==> i < x.count)
    && (forall i :: 0 <= i < x.count ==> i in x.reverse && x.reverse[i] in x.number && x.number[x.reverse[i]] == i)
  }

  /** The index lists exactly those with a stake. */
  predicate Exact(x: Index) {
    Listed(x) && x.number.Keys == x.amounts.Keys && forall a :: a in x.amounts ==> x.amounts[a] > 0
  }

  lemma AddListed(x: Index, a: Addr, v: nat)
    requires Listed(x)
    ensures Listed(Add(x, a, v)) && Add(x, a, v).number.Keys == x.number.Keys + {a}
    ensures forall b :: Amount(Add(x, a, v), b) == Amount(x, b) + if b == a then v else 0
  {
  }

  lemma UnlistListed(x: Index, a: Addr)
    requires Listed(x) && a in x.number
    ensures Listed(Unlist(x, a)) && Unlist(x, a).number.Keys == x.number.Keys - {a}
  {
    var n, last := x.number[a], x.count - 1;
    var y := Unlist(x, a);
    if n != last {
      var swap := x.reverse[last];
      assert swap in x.number && x.number[swap] == last && swap != a;
    }
  }

  /** Taking away keeps the index and changes one amount, or refuses what is more than the stake. */
  lemma SubListed(x: Index, a: Addr, v: nat)
    requires Listed(x)
    ensures Sub(x, a, v).MinusBalance? <==> v > Amount(x, a)
    ensures Sub(x, a, v).Ok? ==>
      && Listed(Sub(x, a, v).index)
      && forall b :: Amount(Sub(x, a, v).index, b) == Amount(x, b) - if b == a then v else 0
  {
    if a in x.number { UnlistListed(x, a); }
  }

  /** The index stays exact under taking away, always. */
  lemma SubExact(x: Index, a: Addr, v: nat)
    requires Exact(x) && Sub(x, a, v).Ok?
    ensures Exact(Sub(x, a, v).index)
  {
    SubListed(x, a, v);
    if a in x.number { UnlistListed(x, a); }
  }

  /** Adding keeps it exact if and only if it does not list someone without a stake: adding zero for a newcomer does. */
  lemma AddExactIff(x: Index, a: Addr, v: nat)
    requires Exact(x)
    ensures Exact(Add(x, a, v)) <==> v > 0 || a in x.amounts
  {
    AddListed(x, a, v);
    var y := Add(x, a, v);
    if v == 0 && a !in x.amounts {
      assert a in y.number.Keys && a !in y.amounts.Keys;
    }
  }

  /** Adding and taking away the same gives the same stakes and stakers, though perhaps other numbers. */
  lemma SubUndoesAdd(x: Index, a: Addr, v: nat)
    requires Exact(x) && v > 0
    ensures Listed(Add(x, a, v)) && Sub(Add(x, a, v), a, v).Ok?
    ensures var y := Sub(Add(x, a, v), a, v).index;
      Exact(y) && y.amounts == x.amounts && y.number.Keys == x.number.Keys && y.count == x.count
  {
    AddListed(x, a, v);
    AddExactIff(x, a, v);
    SubListed(Add(x, a, v), a, v);
    SubExact(Add(x, a, v), a, v);
    var y := Sub(Add(x, a, v), a, v).index;
    assert y.amounts.Keys == x.amounts.Keys by {
      assert forall b :: (b in y.amounts <==> Amount(y, b) > 0) && (b in x.amounts <==> Amount(x, b) > 0);
    }
    assert y.amounts == x.amounts by {
      forall b | b in x.amounts
        ensures b in y.amounts && y.amounts[b] == x.amounts[b]
      {
        assert Amount(y, b) == Amount(x, b);
      }
    }
  }

  // ---- any sequence of changes ----

  datatype Change = Plus(a: Addr, v: nat) | Minus(a: Addr, v: nat)

  /** A change that is refused changes nothing. */
  function AfterChanges(cs: seq<Change>): Index {
    if cs == [] then Empty()
    else
      var x, c := AfterChanges(cs[..|cs| - 1]), cs[|cs| - 1];
      match c
      case Plus(a, v) => Add(x, a, v)
      case Minus(a, v) => if Sub(x, a, v).Ok? then Sub(x, a, v).index else x
  }

  /** What a staker has left of all that was added and taken away. */
  function Net(cs: seq<Change>, b: Addr): nat {
    if cs == [] then 0
    else
      var n, c := Net(cs[..|cs| - 1], b), cs[|cs| - 1];
      match c
      case Plus(a, v) => if a == b then n + v else n
      case Minus(a, v) => if a == b && v <= n then n - v else n
  }

  /** After any sequence of positive additions and of removals the index lists exactly those with a stake, and the stake
      of each is what is left of its own changes. */
  lemma {:induction false} ChangesExact(cs: seq<Change>)
    requires forall i :: 0 <= i < |cs| && cs[i].Plus? ==> cs[i].v > 0
    ensures Exact(AfterChanges(cs)) && forall b :: Amount(AfterChanges(cs), b) == Net(cs, b)
  {
    if cs != [] {
      var x, c := AfterChanges(cs[..|cs| - 1]), cs[|cs| - 1];
      ChangesExact(cs[..|cs| - 1]);
      match c
      case Plus(a, v) =>
        AddListed(x, a, v);
        AddExactIff(x, a, v);
      case Minus(a, v) =>
        SubListed(x, a, v);
        if Sub(x, a, v).Ok? { SubExact(x, a, v); }
    }
  }

  // ---- the index in use ----

  class Staking {
    var amounts: map<Addr, nat>
    var number: map<Addr, nat>
    var reverse: map<nat, Addr>
    var count: nat

    ghost function State(): Index
      reads this
    {
      Index(amounts, number, reverse, count)
    }

    constructor ()
      ensures State() == Empty() && Exact(State())
    {
      amounts, number, reverse, count := map[], map[], map[], 0;
    }

    method AddStakingAmount(a: Addr, v: nat)
      modifies this
      ensures State() == Add(old(State()), a, v) && (old(Listed(State())) ==> Listed(State()))
    {
      if Listed(State()) { AddListed(State(), a, v); }
      if a !in number {
        number, reverse, count := number[a := count], reverse[count := a], count + 1;
      }
      amounts := Store(amounts, a, Get(amounts, a) + v);
    }

    method SubStakingAmount(a: Addr, v: nat) returns (ok: bool)
      modifies this
      ensures ok <==> Sub(old(State()), a, v).Ok?
      ensures State() == if ok then Sub(old(State()), a, v).index else old(State())
      ensures old(Listed(State())) ==> Listed(State())
    {
      if Listed(State()) { SubListed(State(), a, v); }
      var total := Get(amounts, a);
      if total < v { return false; }
      total := total - v;
      if total == 0 && a in number {
        var n, last := number[a], Before(count);
        if n != last {
          var swap := if last in reverse then reverse[last] else 0;
          reverse := reverse[n := swap];
          number := number[swap := n];
        }
        number, reverse, count := number - {a}, reverse - {last}, last;
      }
      amounts := Store(amounts, a, total);
      ok := true;
    }

    /** Goes through the index, where a number that nobody has stands for address zero; with an exact index this gives
        all stakes. */
    method GetStakingAmountMap() returns (m: map<Addr, nat>)
      ensures forall a :: a in m ==> m[a] == Amount(State(), a)
      ensures Listed(State()) ==> m.Keys == number.Keys
      ensures Exact(State()) ==> m == amounts
    {
      m := map[];
      for i := 0 to count
        invariant Listed(State()) ==> forall a :: a in m <==> a in number && number[a] < i
        invariant forall a :: a in m ==> m[a] == Amount(State(), a)
      {
        var a := if i in reverse then reverse[i] else 0;
        m := m[a := Get(amounts, a)];
      }
    }
  }
}
