/** Splitting a reward by power, in whole units, through a ratio with 18 decimals. */
module Rewards {
  import opened Sums

  const COIN: nat := 1000000000000000000

  function Ratio(total: nat, sum: nat): nat
    requires sum > 0
  {
    total * COIN / sum
  }

  function Share(power: nat, ratio: nat): nat { power * ratio / COIN }

  function Shares(ps: seq<nat>, ratio: nat): (s: seq<nat>)
    ensures |s| == |ps| && forall i :: 0 <= i < |s| ==> s[i] == Share(ps[i], ratio)
  {
    seq(|ps|, i requires 0 <= i < |ps| => Share(ps[i], ratio))
  }

  lemma ShareBounds(power: nat, ratio: nat)
    ensures COIN * Share(power, ratio) <= power * ratio < COIN * Share(power, ratio) + COIN
  {
  }

  lemma Distribute(a: nat, b: nat, c: nat)
    ensures (a + b) * c == a * c + b * c
  {
  }

  /** Rounding loses less than one unit for each share. */
  lemma {:induction false} SharesBound(ps: seq<nat>, ratio: nat)
    ensures COIN * Total(Shares(ps, ratio)) <= Total(ps) * ratio
    ensures Total(ps) * ratio <= COIN * Total(Shares(ps, ratio)) + |ps| * COIN
  {
    if ps != [] {
      var front, p := ps[..|ps| - 1], ps[|ps| - 1];
      SharesBound(front, ratio);
      assert Shares(ps, ratio)[..|ps| - 1] == Shares(front, ratio);
      ShareBounds(p, ratio);
      Distribute(Total(front), p, ratio);
    }
  }

  lemma RatioBounds(total: nat, sum: nat)
    requires sum > 0
    ensures sum * Ratio(total, sum) <= total * COIN < sum * Ratio(total, sum) + sum
  {
  }

  // ---- to whom ----

  /** `x` is the part of `total` that `power` has in `sum`: not more, and less by under one unit and what a ratio of 18
      decimals cannot tell apart. */
  ghost predicate Proportional(x: nat, power: nat, total: nat, sum: nat) {
    x * sum <= total * power && total * power * COIN < (x + 1) * sum * COIN + power * sum
  }

  lemma MulMono(a: nat, b: nat, c: nat)
    requires a <= b
    ensures a * c <= b * c
  {
  }

  lemma Rotate(a: nat, b: nat, c: nat)
    ensures a * b * c == b * (a * c) == c * (a * b)
  {
  }

  lemma NotAbove(x: nat, power: nat, total: nat, sum: nat, ratio: nat)
    requires COIN * x <= power * ratio && sum * ratio <= total * COIN
    ensures x * sum <= total * power
  {
    MulMono(COIN * x, power * ratio, sum);
    MulMono(sum * ratio, total * COIN, power);
    Rotate(COIN, x, sum);
    Rotate(power, ratio, sum);
    Rotate(sum, ratio, power);
    Rotate(total, COIN, power);
    assert COIN * (x * sum) <= COIN * (total * power);
  }

  lemma NotFarBelow(x: nat, power: nat, total: nat, sum: nat, ratio: nat)
    requires power * ratio < COIN * x + COIN && total * COIN < sum * ratio + sum && sum > 0
    ensures total * power * COIN < (x + 1) * sum * COIN + power * sum
  {
    MulMono(total * COIN, sum * ratio + sum, power);
    MulMono(power * ratio + 1, COIN * x + COIN, sum);
    Distribute(sum * ratio, sum, power);
    Distribute(power * ratio, 1, sum);
    Rotate(sum, ratio, power);
    Rotate(power, ratio, sum);
    Rotate(total, COIN, power);
    Rotate(total, power, COIN);
    Rotate(x + 1, sum, COIN);
    Rotate(COIN, x + 1, sum);
    assert COIN * x + COIN == COIN * (x + 1);
  }

  lemma ShareFits(power: nat, total: nat, sum: nat)
    requires sum > 0
    ensures Proportional(Share(power, Ratio(total, sum)), power, total, sum)
  {
    var ratio := Ratio(total, sum);
    ShareBounds(power, ratio);
    RatioBounds(total, sum);
    NotAbove(Share(power, ratio), power, total, sum, ratio);
    NotFarBelow(Share(power, ratio), power, total, sum, ratio);
  }

  /** Every share is the part of the total that the power in its own place has. */
  ghost predicate Split(xs: seq<nat>, ps: seq<nat>, total: nat, sum: nat) {
    |xs| == |ps| && forall i :: 0 <= i < |ps| ==> Proportional(xs[i], ps[i], total, sum)
  }

  lemma SharesFit(ps: seq<nat>, total: nat, sum: nat)
    requires sum > 0
    ensures Split(Shares(ps, Ratio(total, sum)), ps, total, sum)
  {
    forall i | 0 <= i < |ps| ensures Proportional(Shares(ps, Ratio(total, sum))[i], ps[i], total, sum) {
      ShareFits(ps[i], total, sum);
    }
  }

  // ---- how much ----

  /** Of `total` all is paid but for less than one unit for each of `n` shares and what a ratio of 18 decimals cannot
      tell apart. */
  ghost predicate NearlyAll(paid: nat, total: nat, sum: nat, n: nat) {
    paid <= total && COIN * (total - paid) < sum + n * COIN
  }

  /** Nothing is paid beyond the reward, and what is left over is less than one unit for each share and the part
      of the power that a ratio of 18 decimals cannot tell apart. */
  lemma SplitBounds(ps: seq<nat>, total: nat)
    requires Total(ps) > 0
    ensures NearlyAll(Total(Shares(ps, Ratio(total, Total(ps)))), total, Total(ps), |ps|)
  {
    var sum := Total(ps);
    var r := Ratio(total, sum);
    var paid := Total(Shares(ps, r));
    SharesBound(ps, r);
    RatioBounds(total, sum);
    assert sum * r == Total(ps) * r;
    assert COIN * paid <= COIN * total;
  }

  /** A formulator with more power gets no less. */
  lemma ShareGrows(p: nat, q: nat, ratio: nat)
    requires p <= q
    ensures Share(p, ratio) <= Share(q, ratio)
  {
    Distribute(p, q - p, ratio);
    ShareBounds(p, ratio);
    ShareBounds(q, ratio);
  }

  lemma TotalSnoc(s: seq<nat>, x: nat)
    ensures Total(s + [x]) == Total(s) + x
  {
    assert (s + [x])[..|s|] == s;
  }

  lemma {:induction false} TotalJoin(s: seq<nat>, t: seq<nat>)
    ensures Total(s + t) == Total(s) + Total(t)
  {
    if t == [] {
      assert s + t == s;
    } else {
      TotalJoin(s, t[..|t| - 1]);
      assert (s + t)[..|s + t| - 1] == s + t[..|t| - 1];
    }
  }

  lemma JoinShares(ps: seq<nat>, qs: seq<nat>, ratio: nat)
    ensures Shares(ps + qs, ratio) == Shares(ps, ratio) + Shares(qs, ratio)
  {
  }

  lemma TwoSplits(ps: seq<nat>, qs: seq<nat>, total: nat, sum: nat, xs: seq<nat>, ys: seq<nat>)
    requires sum == Total(ps) + Total(qs) > 0
    requires xs == Shares(ps, Ratio(total, sum)) && ys == Shares(qs, Ratio(total, sum))
    ensures NearlyAll(Total(xs) + Total(ys), total, sum, |ps| + |qs|)
  {
    TotalJoin(ps, qs);
    SplitBounds(ps + qs, total);
    JoinShares(ps, qs, Ratio(total, sum));
    TotalJoin(xs, ys);
  }

  /** Pays formulators and the reserves of their stakers from one reward: the block rewards since the last payment
      and the fees collected. Nothing is paid when nobody has power. */
  method PayRewards(powers: seq<nat>, stakingPowers: seq<nat>, perBlock: nat, blocks: nat, fee: nat)
      returns (paid: seq<nat>, stacked: seq<nat>, feeLeft: nat)
    ensures Total(powers) + Total(stakingPowers) == 0 ==> paid == [] && stacked == [] && feeLeft == fee
    ensures var total, sum := perBlock * blocks + fee, Total(powers) + Total(stakingPowers);
      sum > 0 ==>
        && feeLeft == 0 && Split(paid, powers, total, sum) && Split(stacked, stakingPowers, total, sum)
        && NearlyAll(Total(paid) + Total(stacked), total, sum, |powers| + |stakingPowers|)
  {
    var sum := AddUp(powers);
    var more := AddUp(stakingPowers);
    sum := sum + more;
    if sum == 0 { return [], [], fee; }
    var total := perBlock * blocks + fee;
    var ratio := total * COIN / sum;
    paid := ShareOut(powers, ratio);
    stacked := ShareOut(stakingPowers, ratio);
    feeLeft := 0;
    SharesFit(powers, total, sum);
    SharesFit(stakingPowers, total, sum);
    TwoSplits(powers, stakingPowers, total, sum, paid, stacked);
  }

  method AddUp(ps: seq<nat>) returns (sum: nat)
    ensures sum == Total(ps)
  {
    sum := 0;
    for i := 0 to |ps|
      invariant sum == Total(ps[..i])
    {
      assert ps[..i + 1][..i] == ps[..i];
      sum := sum + ps[i];
    }
    assert ps[..|ps|] == ps;
  }

  method ShareOut(ps: seq<nat>, ratio: nat) returns (s: seq<nat>)
    ensures s == Shares(ps, ratio)
  {
    s := [];
    for i := 0 to |ps|
      invariant s == Shares(ps[..i], ratio)
    {
      s := s + [ps[i] * ratio / COIN];
    }
    assert ps[..|ps|] == ps;
  }

  // ---- the commission ----

  /** What is left of a share after a commission in thousandths, rounded in favour of the staker. */
  predicate Net(net: nat, gross: nat, commission1000: nat) {
    gross * 1000 <= net * 1000 + gross * commission1000 && net * 1000 + gross * commission1000 < gross * 1000 + 1000
  }

  ghost predicate Nets(nets: seq<nat>, shares: seq<nat>, commission1000: nat) {
    |nets| == |shares| && forall i :: 0 <= i < |shares| ==> Net(nets[i], shares[i], commission1000)
  }

  /** The commission is what the stakers do not get, and `commission1000` thousandths of all shares but for less than
      one unit each. */
  ghost predicate Commission(commission: nat, nets: seq<nat>, shares: seq<nat>, commission1000: nat) {
    && Total(nets) + commission == Total(shares)
    && commission * 1000 <= Total(shares) * commission1000 <= commission * 1000 + 999 * |shares|
  }

  /** Pays out the reserve of a formulator to its stakers, less a commission in thousandths. */
  method PayOut(powers: seq<nat>, reserve: nat, commission1000: nat) returns (nets: seq<nat>, commission: nat)
    requires commission1000 <= 1000 && Total(powers) > 0
    ensures var shares := Shares(powers, Ratio(reserve, Total(powers)));
      && Split(shares, powers, reserve, Total(powers)) && Total(shares) <= reserve
      && Nets(nets, shares, commission1000) && Commission(commission, nets, shares, commission1000)
  {
    var sum := AddUp(powers);
    var shares := ShareOut(powers, reserve * COIN / sum);
    SplitBounds(powers, reserve);
    SharesFit(powers, reserve, sum);
    nets, commission := TakeAll(shares, commission1000);
  }

  /** The commission on each of the shares, and the sum of the commissions. */
  method TakeAll(shares: seq<nat>, commission1000: nat) returns (nets: seq<nat>, commission: nat)
    requires commission1000 <= 1000
    ensures Nets(nets, shares, commission1000) && Commission(commission, nets, shares, commission1000)
  {
    nets, commission := [], 0;
    for i := 0 to |shares|
      invariant Nets(nets, shares[..i], commission1000)
      invariant Commission(commission, nets, shares[..i], commission1000)
    {
      var net, part := TakeCommission(shares[i], commission1000);
      OneMore(nets, shares[..i], commission, commission1000, net, part, shares[i]);
      assert shares[..i + 1] == shares[..i] + [shares[i]];
      commission, nets := commission + part, nets + [net];
    }
    assert shares[..|shares|] == shares;
  }

  method TakeCommission(gross: nat, commission1000: nat) returns (net: nat, part: nat)
    requires commission1000 <= 1000
    ensures net + part == gross && Net(net, gross, commission1000)
  {
    PartFits(gross, commission1000);
    part := gross * commission1000 / 1000;
    net := gross - part;
  }

  lemma PartFits(gross: nat, ratio: nat)
    requires ratio <= 1000
    ensures gross * ratio / 1000 <= gross
    ensures gross * ratio / 1000 * 1000 <= gross * ratio < gross * ratio / 1000 * 1000 + 1000
  {
    Distribute(ratio, 1000 - ratio, gross);
  }

  lemma OneMore(nets: seq<nat>, shares: seq<nat>, commission: nat, commission1000: nat, net: nat, part: nat, gross: nat)
    requires Nets(nets, shares, commission1000) && Commission(commission, nets, shares, commission1000)
    requires net + part == gross && Net(net, gross, commission1000)
    ensures Nets(nets + [net], shares + [gross], commission1000)
    ensures Commission(commission + part, nets + [net], shares + [gross], commission1000)
  {
    TotalSnoc(nets, net);
    TotalSnoc(shares, gross);
    Distribute(Total(shares), gross, commission1000);
  }

  /** Read as the source promises it: of a share `gross` the staker gets `1000 - commission1000` thousandths, rounded
      up to the next unit. */
  lemma NetBounds(net: nat, gross: nat, commission1000: nat)
    requires commission1000 <= 1000
    ensures Net(net, gross, commission1000) <==>
      (1000 - commission1000) * gross <= 1000 * net < (1000 - commission1000) * gross + 1000
  {
    Distribute(1000 - commission1000, commission1000, gross);
  }
}
