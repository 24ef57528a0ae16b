/** The compare-and-swap on a coupon's redemption counter, tried any number of times by callers who
    each read the counter at some earlier moment. */
module Redemptions {
  import opened Base
  import opened Accounts
  import opened Vault
  import opened VaultInvariant
  import Sums

  /** The expected values of the attempts that went through, in order. */
  function Winners(v: Vault, code: nat, limit: nat, attempts: seq<nat>): seq<nat> {
    if attempts == [] then []
    else
      var n := |attempts| - 1;
      var w := AfterAttempts(v, code, limit, attempts[..n]);
      Winners(v, code, limit, attempts[..n]) + (if CasIncrement(w, code, attempts[n], limit).Ok? then [attempts[n]] else [])
  }

  function AfterAttempts(v: Vault, code: nat, limit: nat, attempts: seq<nat>): Vault {
    if attempts == [] then v
    else
      var w := AfterAttempts(v, code, limit, attempts[..|attempts| - 1]);
      Kept(w, CasIncrement(w, code, attempts[|attempts| - 1], limit))
  }

  /** Whatever values the attempts expect: those that go through expect consecutive values from the
      starting count on, the counter ends at the starting count plus their number (stopping at the
      largest u32), and with a limit it is never taken beyond that. */
  lemma {:induction false} WinnersAreConsecutive(v: Vault, code: nat, limit: nat, attempts: seq<nat>)
    requires Redemptions(v, code) <= U32_MAX
    ensures var start, wins := Redemptions(v, code), Winners(v, code, limit, attempts);
            && (forall i :: 0 <= i < |wins| ==> wins[i] == Min(start + i, U32_MAX))
            && Redemptions(AfterAttempts(v, code, limit, attempts), code) == Min(start + |wins|, U32_MAX)
            && (limit > 0 ==> Redemptions(AfterAttempts(v, code, limit, attempts), code) <= Max(start, limit))
  {
    if attempts != [] { WinnersAreConsecutive(v, code, limit, attempts[..|attempts| - 1]); }
  }

  /** Hence two attempts that go through expected the same value if and only if the counter had
      already reached the largest u32 by the first of them; below a limit of u32 never. */
  lemma SameExpectationIff(v: Vault, code: nat, limit: nat, attempts: seq<nat>, i: nat, j: nat)
    requires Redemptions(v, code) <= U32_MAX && limit <= U32_MAX
    requires i < j < |Winners(v, code, limit, attempts)|
    ensures Winners(v, code, limit, attempts)[i] == Winners(v, code, limit, attempts)[j] <==> Redemptions(v, code) + i >= U32_MAX
    ensures limit > 0 ==> Winners(v, code, limit, attempts)[i] < Winners(v, code, limit, attempts)[j]
  {
    hide Winners;
    WinnersAreConsecutive(v, code, limit, attempts);
    if limit > 0 { WinnersBelowLimit(v, code, limit, attempts); }
  }

  lemma {:induction false} WinnersBelowLimit(v: Vault, code: nat, limit: nat, attempts: seq<nat>)
    requires limit > 0
    ensures forall i :: 0 <= i < |Winners(v, code, limit, attempts)| ==> Winners(v, code, limit, attempts)[i] < limit
  {
    if attempts != [] { WinnersBelowLimit(v, code, limit, attempts[..|attempts| - 1]); }
  }

  // ----- In the contract -----

  lemma {:induction false} SumOfOnes(m: map<nat, int>)
    requires forall k :: k in m ==> m[k] == 1
    ensures Sums.Sum(m) == |m|
    decreases |m|
  {
    if m != map[] {
      var k :| k in m;
      Sums.SumSplit(m, k);
      SumOfOnes(m - {k});
      assert (m - {k}).Keys == m.Keys - {k};
      assert |m.Keys - {k}| == |m.Keys| - 1 && |m| == |m.Keys| && |m - {k}| == |(m - {k}).Keys|;
    }
  }

  lemma FewerThanAccounts(accounts: map<nat, Account>, code: nat, id: nat)
    requires id in accounts && accounts[id].coupon != Some(code)
    ensures Sums.Sum(BoundTo(accounts, code)) < |accounts|
  {
    var bound := BoundTo(accounts, code);
    SumOfOnes(bound);
    SubsetSmaller(bound.Keys, accounts.Keys, id);
    assert |bound| == |bound.Keys| && |accounts| == |accounts.Keys|;
  }

  lemma SubsetSmaller(a: set<nat>, b: set<nat>, x: nat)
    requires a <= b && x in b && x !in a
    ensures |a| < |b|
  {
    SubsetAtMost(a, b - {x});
  }

  lemma {:induction false} SubsetAtMost(a: set<nat>, b: set<nat>)
    requires a <= b
    ensures |a| <= |b|
    decreases |a|
  {
    if a != {} {
      var x :| x in a;
      SubsetAtMost(a - {x}, b - {x});
    }
  }

  /** In the contract the counter never reaches its largest value: it counts subscriptions bound to
      the coupon, one of the at most U32_MAX subscriptions is not yet among them when another is
      bound, and so every binding raises it by exactly one. */
  lemma BindingNeverSaturates(v: Vault, caller: nat, id: nat, code: nat)
    requires Inv(v) && ApplyCoupon(v, caller, id, code).Ok?
    ensures Redemptions(v, code) < |v.accounts| <= U32_MAX
    ensures Redemptions(ApplyCoupon(v, caller, id, code).value, code) == Redemptions(v, code) + 1
  {
    hide EachAccount, DisputesOk, EscrowsOk, LedgerOk;
    assert CouponOk(v.accounts, v.redemptions, v.cfg.coupons, code);
    FewerThanAccounts(v.accounts, code, id);
  }
}
