/** Merchant and treasury balances per token, and the earnings kept beside them. */
module Ledger {
  import opened Base
  import opened Sums
  import StatementLog

  type Kind = StatementLog.Kind

  datatype Earnings = Earnings(interval: int, usage: int, oneOff: int, withdrawals: int, refunds: int)

  datatype Ledger = Ledger(
    balance: map<(nat, nat), int>,
    earnings: map<(nat, nat), Earnings>,
    tokens: map<nat, seq<nat>>)

  const NO_EARNINGS := Earnings(0, 0, 0, 0, 0)

  function BalanceOf(l: Ledger, who: nat, token: nat): int {
    if (who, token) in l.balance then l.balance[(who, token)] else 0
  }

  function EarningsOf(l: Ledger, who: nat, token: nat): Earnings {
    if (who, token) in l.earnings then l.earnings[(who, token)] else NO_EARNINGS
  }

  function TokensOf(l: Ledger, who: nat): seq<nat> {
    if who in l.tokens then l.tokens[who] else []
  }

  function SetBalance(l: Ledger, who: nat, token: nat, x: int): Ledger {
    l.(balance := l.balance[(who, token) := x])
  }

  function Accrued(e: Earnings, kind: Kind): int {
    match kind
    case Interval => e.interval
    case Usage => e.usage
    case OneOff => e.oneOff
  }

  function Accrue(e: Earnings, kind: Kind, amount: int): Earnings {
    match kind
    case Interval => e.(interval := e.interval + amount)
    case Usage => e.(usage := e.usage + amount)
    case OneOff => e.(oneOff := e.oneOff + amount)
  }

  function AddToken(l: Ledger, who: nat, token: nat): Ledger {
    if token in TokensOf(l, who) then l else l.(tokens := l.tokens[who := TokensOf(l, who) + [token]])
  }

  /** Is the new balance written at all? */
  predicate Posts(l: Ledger, who: nat, token: nat, amount: int) {
    amount >= 0 && InI128(BalanceOf(l, who, token) + amount)
  }

  /** One credit. The balance is written before the accrual is checked, so a credit refused for
      its accrual leaves the higher balance behind unless the caller rolls back. */
  function Credit(l: Ledger, who: nat, token: nat, amount: int, kind: Kind): (Ledger, Option<Error>) {
    if amount < 0 then (l, Some(InvalidAmount))
    else if !InI128(BalanceOf(l, who, token) + amount) then (l, Some(Overflow))
    else
      var l1 := SetBalance(l, who, token, BalanceOf(l, who, token) + amount);
      var e := EarningsOf(l1, who, token);
      if !InI128(Accrued(e, kind) + amount) then (l1, Some(Overflow))
      else (AddToken(l1.(earnings := l1.earnings[(who, token) := Accrue(e, kind, amount)]), who, token), None)
  }

  /** Credits a list in order and stops at the first refusal. */
  function CreditAll(l: Ledger, credits: seq<(nat, int)>, token: nat, kind: Kind): (Ledger, Option<Error>) {
    if credits == [] then (l, None)
    else
      var (l1, e) := CreditAll(l, credits[..|credits| - 1], token, kind);
      if e.Some? then (l1, e)
      else Credit(l1, credits[|credits| - 1].0, token, credits[|credits| - 1].1, kind)
  }

  /** How much CreditAll adds to balances, including the balance of a credit refused late. */
  function Posted(l: Ledger, credits: seq<(nat, int)>, token: nat, kind: Kind): int {
    if credits == [] then 0
    else
      var (l1, e) := CreditAll(l, credits[..|credits| - 1], token, kind);
      var last := credits[|credits| - 1];
      Posted(l, credits[..|credits| - 1], token, kind)
      + (if e.None? && Posts(l1, last.0, token, last.1) then last.1 else 0)
  }

  function SumCredits(credits: seq<(nat, int)>): int {
    if credits == [] then 0 else SumCredits(credits[..|credits| - 1]) + credits[|credits| - 1].1
  }

  /** What a list credits to one party. */
  function CreditedTo(credits: seq<(nat, int)>, who: nat): int {
    if credits == [] then 0
    else CreditedTo(credits[..|credits| - 1], who) + (if credits[|credits| - 1].0 == who then credits[|credits| - 1].1 else 0)
  }

  // ----- Totals -----

  ghost function BalanceMap(l: Ledger, token: nat): map<(nat, nat), int> {
    map k | k in l.balance && k.1 == token :: l.balance[k]
  }

  ghost function BalanceTotal(l: Ledger, token: nat): int { Sum(BalanceMap(l, token)) }

  lemma SetBalanceTotal(l: Ledger, who: nat, token: nat, x: int, t: nat)
    ensures BalanceTotal(SetBalance(l, who, token, x), t)
         == BalanceTotal(l, t) + (if t == token then x - BalanceOf(l, who, token) else 0)
  {
    var l' := SetBalance(l, who, token, x);
    if t == token {
      assert BalanceMap(l', t) == BalanceMap(l, t)[(who, token) := x];
      SumUpdate(BalanceMap(l, t), (who, token), x);
    } else {
      assert BalanceMap(l', t) == BalanceMap(l, t);
    }
  }

  lemma SameBalances(l: Ledger, l': Ledger, t: nat)
    requires l.balance == l'.balance
    ensures BalanceTotal(l, t) == BalanceTotal(l', t)
  {
    assert BalanceMap(l, t) == BalanceMap(l', t);
  }

  lemma CreditTotal(l: Ledger, who: nat, token: nat, amount: int, kind: Kind, t: nat)
    ensures BalanceTotal(Credit(l, who, token, amount, kind).0, t)
         == BalanceTotal(l, t) + (if t == token && Posts(l, who, token, amount) then amount else 0)
  {
    if Posts(l, who, token, amount) {
      var l1 := SetBalance(l, who, token, BalanceOf(l, who, token) + amount);
      SetBalanceTotal(l, who, token, BalanceOf(l, who, token) + amount, t);
      SameBalances(l1, Credit(l, who, token, amount, kind).0, t);
    }
  }

  /** The total of the credited token rises by exactly what was posted; no other total moves. */
  lemma {:induction false} CreditAllTotal(l: Ledger, credits: seq<(nat, int)>, token: nat, kind: Kind, t: nat)
    ensures BalanceTotal(CreditAll(l, credits, token, kind).0, t)
         == BalanceTotal(l, t) + (if t == token then Posted(l, credits, token, kind) else 0)
  {
    if credits != [] {
      var init, last := credits[..|credits| - 1], credits[|credits| - 1];
      CreditAllTotal(l, init, token, kind, t);
      if CreditAll(l, init, token, kind).1.None? {
        CreditTotal(CreditAll(l, init, token, kind).0, last.0, token, last.1, kind, t);
      }
    }
  }

  /** A list credited without refusal posts exactly its sum. */
  lemma {:induction false} CompletePosts(l: Ledger, credits: seq<(nat, int)>, token: nat, kind: Kind)
    requires CreditAll(l, credits, token, kind).1.None?
    ensures Posted(l, credits, token, kind) == SumCredits(credits)
  {
    if credits != [] {
      CompletePosts(l, credits[..|credits| - 1], token, kind);
    }
  }

  predicate NonNegative(l: Ledger) { forall k :: k in l.balance ==> l.balance[k] >= 0 }

  predicate EarningsInRange(l: Ledger) {
    forall k :: k in l.earnings ==> InI128(l.earnings[k].interval) && InI128(l.earnings[k].usage)
  }

  lemma CreditKeeps(l: Ledger, who: nat, token: nat, amount: int, kind: Kind)
    requires NonNegative(l) && EarningsInRange(l)
    ensures NonNegative(Credit(l, who, token, amount, kind).0) && EarningsInRange(Credit(l, who, token, amount, kind).0)
  {}

  lemma {:induction false} CreditAllKeeps(l: Ledger, credits: seq<(nat, int)>, token: nat, kind: Kind)
    requires NonNegative(l) && EarningsInRange(l)
    ensures NonNegative(CreditAll(l, credits, token, kind).0) && EarningsInRange(CreditAll(l, credits, token, kind).0)
    ensures Posted(l, credits, token, kind) >= 0
  {
    if credits != [] {
      var init, last := credits[..|credits| - 1], credits[|credits| - 1];
      CreditAllKeeps(l, init, token, kind);
      CreditKeeps(CreditAll(l, init, token, kind).0, last.0, token, last.1, kind);
    }
  }

  // ----- When does a list of credits go through? -----

  predicate NonNegativeCredits(credits: seq<(nat, int)>) {
    forall i :: 0 <= i < |credits| ==> credits[i].1 >= 0
  }

  /** No accrual the list touches would leave i128. */
  predicate AccrualsFit(l: Ledger, credits: seq<(nat, int)>, token: nat, kind: Kind) {
    forall i :: 0 <= i < |credits| ==> Accrued(EarningsOf(l, credits[i].0, token), kind) + CreditedTo(credits, credits[i].0) <= I128_MAX
  }

  lemma {:induction false} CreditedToBounds(credits: seq<(nat, int)>, who: nat)
    requires NonNegativeCredits(credits)
    ensures 0 <= CreditedTo(credits, who) <= SumCredits(credits)
    ensures forall i :: 0 <= i < |credits| && credits[i].0 == who ==> credits[i].1 <= CreditedTo(credits, who)
    ensures (forall i :: 0 <= i < |credits| ==> credits[i].0 != who) ==> CreditedTo(credits, who) == 0
  {
    if credits != [] { CreditedToBounds(credits[..|credits| - 1], who); }
  }

  /** A party's balance and accrual after a complete list. */
  lemma {:induction false} CompleteEffect(l: Ledger, credits: seq<(nat, int)>, token: nat, kind: Kind, who: nat)
    requires CreditAll(l, credits, token, kind).1.None?
    ensures var l' := CreditAll(l, credits, token, kind).0;
            && BalanceOf(l', who, token) == BalanceOf(l, who, token) + CreditedTo(credits, who)
            && Accrued(EarningsOf(l', who, token), kind) == Accrued(EarningsOf(l, who, token), kind) + CreditedTo(credits, who)
  {
    if credits != [] { CompleteEffect(l, credits[..|credits| - 1], token, kind, who); }
  }

  lemma {:induction false} PrefixFits(l: Ledger, credits: seq<(nat, int)>, token: nat, kind: Kind)
    requires credits != [] && NonNegativeCredits(credits) && AccrualsFit(l, credits, token, kind)
    ensures AccrualsFit(l, credits[..|credits| - 1], token, kind)
  {
    var init := credits[..|credits| - 1];
    forall i | 0 <= i < |init|
      ensures Accrued(EarningsOf(l, init[i].0, token), kind) + CreditedTo(init, init[i].0) <= I128_MAX
    {
      assert init[i] == credits[i];
    }
  }

  /** Where the balances have room, non-negative credits go through exactly when every accrual
      they touch fits in i128. */
  lemma {:induction false} CompleteIffAccrualsFit(l: Ledger, credits: seq<(nat, int)>, token: nat, kind: Kind)
    requires NonNegative(l) && EarningsInRange(l) && NonNegativeCredits(credits) && !kind.OneOff?
    requires BalanceTotal(l, token) + SumCredits(credits) <= I128_MAX
    ensures CreditAll(l, credits, token, kind).1.None? <==> AccrualsFit(l, credits, token, kind)
    ensures CreditAll(l, credits, token, kind).1.Some? ==> Posted(l, credits, token, kind) > 0
  {
    if credits != [] {
      var init, last := credits[..|credits| - 1], credits[|credits| - 1];
      CompleteIffAccrualsFit(l, init, token, kind);
      var (l1, e) := CreditAll(l, init, token, kind);
      if e.Some? {
        if AccrualsFit(l, credits, token, kind) { PrefixFits(l, credits, token, kind); }
      } else {
        CreditAllKeeps(l, init, token, kind);
        CreditAllTotal(l, init, token, kind, token);
        CompletePosts(l, init, token, kind);
        BalanceBelowTotal(l1, last.0, token);
        CompleteEffect(l, init, token, kind, last.0);
        LastDecides(l, credits, token, kind);
      }
    }
  }

  lemma BalanceBelowTotal(l: Ledger, who: nat, token: nat)
    requires NonNegative(l)
    ensures 0 <= BalanceOf(l, who, token) <= BalanceTotal(l, token)
  {
    SumBounds(BalanceMap(l, token));
    if (who, token) in l.balance { assert (who, token) in BalanceMap(l, token); }
  }

  /** After a fitting prefix only the last party's accrual can still be too large. */
  lemma LastDecides(l: Ledger, credits: seq<(nat, int)>, token: nat, kind: Kind)
    requires credits != [] && AccrualsFit(l, credits[..|credits| - 1], token, kind)
    requires NonNegativeCredits(credits)
    ensures var who := credits[|credits| - 1].0;
            AccrualsFit(l, credits, token, kind) <==> Accrued(EarningsOf(l, who, token), kind) + CreditedTo(credits, who) <= I128_MAX
  {
    var init, last := credits[..|credits| - 1], credits[|credits| - 1];
    forall i | 0 <= i < |credits| && credits[i].0 != last.0
      ensures Accrued(EarningsOf(l, credits[i].0, token), kind) + CreditedTo(credits, credits[i].0) <= I128_MAX
    {
      assert init[i] == credits[i];
    }
  }
}
