/** Charge arithmetic: first-period proration, coupon discount, protocol fee and split shares. */
module ChargeMath {
  import opened Base

  const BPS: int := 10_000
  const MAX_FEE_BIPS: int := 10_000
  const MAX_SUBSCRIPTION_AMOUNT: int := I128_MAX / MAX_FEE_BIPS

  // ----- Proration -----

  /** The amount is split into quotient and remainder so that no product grows with both factors. */
  function ProratedFirstCharge(amount: int, interval: nat, remaining: nat): Result<int> {
    if amount < 0 then Err(InvalidAmount)
    else if interval == 0 then Err(InvalidInput)
    else if remaining == 0 then Ok(0)
    else if remaining >= interval then Ok(amount)
    else
      var whole := (amount / interval) * remaining;
      if !InI128(whole) then Err(Overflow)
      else
        var fractionalProduct := (amount % interval) * remaining;
        if fractionalProduct > U128_MAX then Err(Overflow)
        else
          var prorated := whole + fractionalProduct / interval;
          if !InI128(prorated) then Err(Overflow) else Ok(Min(prorated, amount))
  }

  lemma MulMono(a: int, b: int, c: int)
    requires 0 <= c && a <= b
    ensures a * c <= b * c
  {}

  lemma DivMono(a: int, b: int, d: int)
    requires 0 < d && a <= b
    ensures a / d <= b / d
  {
    var k := a / d - b / d;
    assert d * k == (a - a % d) - (b - b % d) < d;
    BelowUnit(d, k);
  }

  lemma BelowUnit(d: int, k: int)
    requires 0 < d && d * k < d
    ensures k <= 0
  {}

  /** Division by d after adding a multiple of d. */
  lemma DivShift(x: int, y: int, d: int)
    requires 0 < d
    ensures (d * x + y) / d == x + y / d
  {
    var q := y / d;
    assert y == d * q + y % d;
    assert d * x + y == d * (x + q) + y % d;
    DivUnique(d * x + y, d, x + q, y % d);
  }

  lemma DivUnique(n: int, d: int, q: int, r: int)
    requires 0 < d && n == d * q + r && 0 <= r < d
    ensures n / d == q
  {
    var q' := n / d;
    assert d * (q' - q) == r - n % d;
    assert -d < d * (q' - q) < d;
    UnitMultiple(d, q' - q);
  }

  lemma UnitMultiple(d: int, k: int)
    requires 0 < d && -d < d * k < d
    ensures k == 0
  {}

  /** (a / i) * r + ((a % i) * r) / i is the floor of a * r / i. */
  lemma SplitProduct(a: nat, i: nat, r: nat)
    requires i > 0
    ensures (a / i) * r + ((a % i) * r) / i == (a * r) / i
  {
    var q, m := a / i, a % i;
    assert a == i * q + m;
    assert a * r == i * (q * r) + m * r by {
      assert (i * q + m) * r == i * q * r + m * r;
    }
    DivShift(q * r, m * r, i);
  }

  /** Every intermediate term of the proration stays in range. */
  lemma ProrationTerms(amount: nat, interval: nat, remaining: nat)
    requires amount <= I128_MAX && 0 < remaining < interval <= U64_MAX
    ensures 0 <= (amount / interval) * remaining <= I128_MAX
    ensures 0 <= (amount % interval) * remaining <= U128_MAX
    ensures (amount / interval) * remaining + ((amount % interval) * remaining) / interval == (amount * remaining) / interval
    ensures 0 <= (amount * remaining) / interval <= amount
  {
    var q, m := amount / interval, amount % interval;
    SplitProduct(amount, interval, remaining);
    FloorBelow(amount, interval, remaining);
    MulMono(0, q, remaining);
    MulMono(0, m, remaining);
    MulMono(m, U64_MAX, remaining);
    DivMono(0, m * remaining, interval);
  }

  lemma FloorBelow(amount: nat, interval: nat, remaining: nat)
    requires remaining < interval
    ensures 0 <= (amount * remaining) / interval <= amount
  {
    MulMono(remaining, interval, amount);
    MulMono(0, remaining, amount);
    DivMono(amount * remaining, amount * interval, interval);
    DivUnique(amount * interval, interval, amount, 0);
    DivMono(0, amount * remaining, interval);
  }

  /** For every valid amount and interval proration never fails and is exactly the floor of
      amount * remaining / interval, with the full amount once the interval is over. */
  lemma ProrationIsExactFloor(amount: int, interval: nat, remaining: nat)
    requires 0 <= amount <= I128_MAX && 0 < interval <= U64_MAX && remaining <= U64_MAX
    ensures ProratedFirstCharge(amount, interval, remaining)
         == Ok(if remaining >= interval then amount else (amount * remaining) / interval)
    ensures 0 <= ProratedFirstCharge(amount, interval, remaining).value <= amount
  {
    if 0 < remaining < interval {
      ProrationTerms(amount, interval, remaining);
    } else if remaining == 0 {
      assert amount * 0 == 0;
    }
  }

  /** More remaining time never costs less. */
  lemma ProrationIsMonotone(amount: int, interval: nat, low: nat, high: nat)
    requires 0 <= amount <= I128_MAX && 0 < interval <= U64_MAX && low <= high <= U64_MAX
    ensures ProratedFirstCharge(amount, interval, low).Ok? && ProratedFirstCharge(amount, interval, high).Ok?
    ensures ProratedFirstCharge(amount, interval, low).value <= ProratedFirstCharge(amount, interval, high).value
  {
    ProrationIsExactFloor(amount, interval, low);
    ProrationIsExactFloor(amount, interval, high);
    if low < high < interval {
      FloorMono(amount, interval, low, high);
    }
  }

  lemma FloorMono(amount: nat, interval: nat, low: nat, high: nat)
    requires 0 < interval && low <= high
    ensures (amount * low) / interval <= (amount * high) / interval
  {
    MulMono(low, high, amount);
    DivMono(amount * low, amount * high, interval);
  }

  // ----- Coupon discount -----

  /** Percentage first, then the fixed amount, clamped so that the payable part is not negative. */
  function ComputeDiscount(gross: int, percentOffBps: nat, fixedOff: int): int {
    var afterPct := if percentOffBps > 0 then TruncDiv(gross * (BPS - percentOffBps), BPS) else gross;
    gross - Max(afterPct - fixedOff, 0)
  }

  /** The discount lies between nothing and everything, no product or difference leaves i128,
      and a larger percentage or fixed part never makes the charge dearer. */
  lemma DiscountBounds(gross: int, percentOffBps: nat, fixedOff: int)
    requires 0 <= gross <= MAX_SUBSCRIPTION_AMOUNT && percentOffBps <= BPS && 0 <= fixedOff <= I128_MAX
    ensures 0 <= ComputeDiscount(gross, percentOffBps, fixedOff) <= gross
    ensures 0 <= gross * (BPS - percentOffBps) <= I128_MAX
    ensures gross - ComputeDiscount(gross, percentOffBps, fixedOff)
         == Max((gross * (BPS - percentOffBps)) / BPS - fixedOff, 0)
  {
    MulMono(0, gross, BPS - percentOffBps);
    MulMono(BPS - percentOffBps, BPS, gross);
    assert gross * BPS <= I128_MAX;
    DivMono(gross * (BPS - percentOffBps), gross * BPS, BPS);
    DivMono(0, gross * (BPS - percentOffBps), BPS);
  }

  lemma DiscountIsMonotone(gross: int, p0: nat, p1: nat, f0: int, f1: int)
    requires 0 <= gross <= MAX_SUBSCRIPTION_AMOUNT && p0 <= p1 <= BPS && 0 <= f0 <= f1 <= I128_MAX
    ensures ComputeDiscount(gross, p0, f0) <= ComputeDiscount(gross, p1, f1)
  {
    DiscountBounds(gross, p0, f0);
    DiscountBounds(gross, p1, f1);
    MulMono(BPS - p1, BPS - p0, gross);
    DivMono(gross * (BPS - p1), gross * (BPS - p0), BPS);
  }

  // ----- Protocol fee -----

  /** Merchant net and fee. A fee is taken only with a positive rate and a treasury, and is
      then at least one unit. */
  function FeeSplit(amount: int, feeBps: nat, hasTreasury: bool): (int, int) {
    if feeBps > 0 && hasTreasury then
      var fee := Max(TruncDiv(amount * feeBps, BPS), 1);
      (amount - fee, fee)
    else
      (amount, 0)
  }

  /** Gross = discount + merchant net + fee, through the whole pipeline and without overflow.
      A payable amount of at least one unit yields a fee between one unit and the payable amount. */
  lemma GrossIsDiscountPlusNetPlusFee(gross: int, percentOffBps: nat, fixedOff: int, feeBps: nat, hasTreasury: bool)
    requires 0 <= gross <= MAX_SUBSCRIPTION_AMOUNT && percentOffBps <= BPS && 0 <= fixedOff <= I128_MAX
    requires feeBps <= BPS
    ensures var discount := ComputeDiscount(gross, percentOffBps, fixedOff);
            var payable := gross - discount;
            var (net, fee) := FeeSplit(payable, feeBps, hasTreasury);
            && discount + net + fee == gross
            && 0 <= payable * feeBps <= I128_MAX
            && (fee == 0 <==> feeBps == 0 || !hasTreasury)
            && fee == (if feeBps > 0 && hasTreasury then Max((payable * feeBps) / 10_000, 1) else 0)
            && payable == Max((gross * (10_000 - percentOffBps)) / 10_000 - fixedOff, 0)
            && (payable >= 1 ==> 0 <= net && 0 <= fee <= payable)
            && (payable == 0 && fee != 0 ==> net == -1)
  {
    DiscountBounds(gross, percentOffBps, fixedOff);
    var payable := gross - ComputeDiscount(gross, percentOffBps, fixedOff);
    FeeBounds(payable, feeBps, hasTreasury);
  }

  lemma FeeBounds(amount: int, feeBps: nat, hasTreasury: bool)
    requires 0 <= amount <= MAX_SUBSCRIPTION_AMOUNT && feeBps <= BPS
    ensures var (net, fee) := FeeSplit(amount, feeBps, hasTreasury);
            && net + fee == amount
            && 0 <= amount * feeBps <= I128_MAX
            && fee >= 0
            && fee == (if feeBps > 0 && hasTreasury then Max((amount * feeBps) / 10_000, 1) else 0)
            && (fee == 0 <==> feeBps == 0 || !hasTreasury)
            && (amount >= 1 ==> net >= 0)
            && (amount == 0 && fee != 0 ==> net == -1)
  {
    MulMono(0, amount, feeBps);
    MulMono(feeBps, BPS, amount);
    DivMono(amount * feeBps, amount * BPS, BPS);
    DivMono(0, amount * feeBps, BPS);
  }

  // ----- Split shares -----

  function Share(net: int, weight: nat): int { TruncDiv(net * weight, BPS) }

  function SumShares(net: int, weights: seq<nat>): int {
    if weights == [] then 0 else SumShares(net, weights[..|weights| - 1]) + Share(net, weights[|weights| - 1])
  }

  function SumWeights(weights: seq<nat>): nat {
    if weights == [] then 0 else SumWeights(weights[..|weights| - 1]) + weights[|weights| - 1]
  }

  /** What each payee is credited: the later payees their truncated share, the first the rest. */
  function Shares(net: int, weights: seq<nat>): (r: seq<int>)
    requires weights != []
    ensures |r| == |weights|
  {
    [net - SumShares(net, weights[1..])] + seq(|weights| - 1, i requires 0 <= i < |weights| - 1 => Share(net, weights[i + 1]))
  }

  function Sum(s: seq<int>): int {
    if s == [] then 0 else Sum(s[..|s| - 1]) + s[|s| - 1]
  }

  lemma {:induction false} SumIsSumShares(net: int, weights: seq<nat>, s: seq<int>)
    requires |s| == |weights| && forall i :: 0 <= i < |s| ==> s[i] == Share(net, weights[i])
    ensures Sum(s) == SumShares(net, weights)
  {
    if s != [] {
      SumIsSumShares(net, weights[..|weights| - 1], s[..|s| - 1]);
    }
  }

  lemma {:induction false} SumCons(x: int, s: seq<int>)
    ensures Sum([x] + s) == x + Sum(s)
  {
    if s != [] {
      SumCons(x, s[..|s| - 1]);
      assert ([x] + s)[..|[x] + s| - 1] == [x] + s[..|s| - 1];
    } else {
      assert [x] + s == [x];
      assert [x][..0] == [];
    }
  }

  lemma {:induction false} WeightsCons(w: nat, s: seq<nat>)
    ensures SumWeights([w] + s) == w + SumWeights(s)
  {
    if s != [] {
      WeightsCons(w, s[..|s| - 1]);
      assert ([w] + s)[..|[w] + s| - 1] == [w] + s[..|s| - 1];
    } else {
      assert [w] + s == [w];
      assert [w][..0] == [];
    }
  }

  lemma ShareBounds(net: nat, weight: nat)
    ensures 0 <= Share(net, weight)
    ensures net * weight - (BPS - 1) <= BPS * Share(net, weight) <= net * weight
  {
    MulMono(0, net, weight);
    DivMono(0, net * weight, BPS);
  }

  /** Truncation loses less than one unit per payee. */
  lemma {:induction false} SumSharesBounds(net: nat, weights: seq<nat>)
    ensures 0 <= SumShares(net, weights)
    ensures net * SumWeights(weights) - (BPS - 1) * |weights| <= BPS * SumShares(net, weights) <= net * SumWeights(weights)
  {
    if weights != [] {
      var k := |weights| - 1;
      SumSharesBounds(net, weights[..k]);
      ShareBounds(net, weights[k]);
      assert net * SumWeights(weights) == net * SumWeights(weights[..k]) + net * weights[k];
    }
  }

  /** The shares always add up to the net amount, whatever the weights. */
  lemma SharesSumToNet(net: int, weights: seq<nat>)
    requires weights != []
    ensures Sum(Shares(net, weights)) == net
  {
    var rest := seq(|weights| - 1, i requires 0 <= i < |weights| - 1 => Share(net, weights[i + 1]));
    SumIsSumShares(net, weights[1..], rest);
    SumCons(net - SumShares(net, weights[1..]), rest);
  }

  lemma RemainderBound(net: nat, first: nat, rest: seq<nat>)
    requires first + SumWeights(rest) == BPS
    ensures 0 <= Share(net, first) <= net - SumShares(net, rest) <= Share(net, first) + |rest|
  {
    SumSharesBounds(net, rest);
    ShareBounds(net, first);
    var w, a, b := SumWeights(rest), Share(net, first), SumShares(net, rest);
    assert net * BPS == net * first + net * w;
  }

  lemma LaterShare(net: nat, weights: seq<nat>, i: nat)
    requires 0 < i < |weights|
    ensures Shares(net, weights)[i] == Share(net, weights[i]) >= 0
  {
    ShareBounds(net, weights[i]);
  }

  lemma FirstShare(net: nat, weights: seq<nat>)
    requires weights != [] && SumWeights(weights) == BPS
    ensures 0 <= Share(net, weights[0]) <= Shares(net, weights)[0] <= Share(net, weights[0]) + |weights| - 1
  {
    assert weights == [weights[0]] + weights[1..];
    WeightsCons(weights[0], weights[1..]);
    RemainderBound(net, weights[0], weights[1..]);
  }

  /** With weights summing to 10000 nobody is debited, every payee but the first receives the
      floor of its share, and the first receives its own floor share plus at most one unit for
      every other payee. */
  lemma SharesAreFair(net: nat, weights: seq<nat>, i: nat)
    requires i < |weights| && SumWeights(weights) == BPS
    ensures Shares(net, weights)[i] >= 0
    ensures 0 < i ==> Shares(net, weights)[i] == (net * weights[i]) / BPS
    ensures i == 0 ==> 0 <= Shares(net, weights)[0] - (net * weights[0]) / BPS <= |weights| - 1
  {
    MulMono(0, net, weights[i]);
    if i == 0 {
      FirstShare(net, weights);
    } else {
      LaterShare(net, weights, i);
    }
  }
}
