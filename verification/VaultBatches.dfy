/** When a batch conserves. A batch item that fails is not rolled back, so a batch can leave
    liabilities behind that nothing covers; this module says for which batches it does not, in
    terms of the state the batch is called in, and extends conservation and solvency to runs with
    any number of batches. */
module VaultBatches {
  import opened Base
  import opened Accounts
  import opened AccountLaws
  import opened Vault
  import opened VaultTotals
  import opened VaultInvariant
  import opened VaultFrames
  import opened VaultConservation
  import opened VaultRuns
  import opened VaultSolvency
  import opened BatchCache
  import ChargeMath
  import Ledger
  import StatementLog

  // ----- The batch without its cache -----

  /** What an item leaves behind does not depend on the cache either. */
  lemma ItemLeakAgrees(v: Vault, id: nat, key: Option<nat>, cache: Option<Cache>, t: nat)
    requires CacheOk(cache, v.cfg, v.now)
    ensures ItemLeak(v, id, key, ReadAdmin(v.cfg), cache, t) == ItemLeak(v, id, key, None, None, t)
  {
    hide DecideInterval, PartyObstacle, LookupStatus, SettleLeak;
    if id in v.accounts { LookupAgrees(v, v.accounts[id].sub.merchant, cache); }
  }

  lemma {:induction false} BatchLeakAgrees(v: Vault, ids: seq<nat>, keys: Option<seq<nat>>, n: nat, t: nat)
    requires n <= |ids|
    ensures BatchLeak(v, ids, keys, ReadAdmin(v.cfg), Some(map[]), n, t) == BatchLeak(v, ids, keys, None, None, n, t)
  {
    hide ChargeOne, ItemLeak, BatchRun;
    if n > 0 {
      BatchLeakAgrees(v, ids, keys, n - 1, t);
      CachedBatchAgrees(v, ids, keys, n - 1);
      var b := BatchRun(v, ids, keys, ReadAdmin(v.cfg), Some(map[]), n - 1);
      ItemLeakAgrees(b.vault, ids[n - 1], KeyAt(keys, n - 1), b.cache, t);
    }
  }

  // ----- One item -----

  /** The positive charge an item would settle, judged by the subscription alone. */
  function PlanOf(v: Vault, id: nat, key: Option<nat>): Option<Plan> {
    if v.cfg.emergencyStop || id !in v.accounts then None
    else
      var a := v.accounts[id];
      if PartyObstacle(v.cfg, a, MerchantStatus(v.cfg, a.sub.merchant, v.now), v.now).Some? then None
      else
        match DecideInterval(v.cfg, StoredAdmin(v.cfg), a, id, v.now, v.ledgerSeq, key)
        case Finish(_, _) => None
        case Refund(_, _) => None
        case Settle(p) => if p.amount > 0 then Some(p) else None
  }

  function CreditsOf(v: Vault, id: nat, p: Plan): seq<(nat, int)>
    requires id in v.accounts
  {
    Credits(v.accounts[id], p.sub.merchant, p.amount, v.cfg.feeBps, v.cfg.treasury)
  }

  /** What an item would credit in a token. */
  function ItemCredits(v: Vault, id: nat, key: Option<nat>, t: nat): seq<(nat, int)> {
    var plan := PlanOf(v, id, key);
    if plan.Some? && plan.value.sub.token == t then CreditsOf(v, id, plan.value) else []
  }

  predicate LifetimeFits(v: Vault, id: nat, key: Option<nat>) {
    var plan := PlanOf(v, id, key);
    plan.Some? ==> plan.value.sub.lifetimeCharged + plan.value.amount <= I128_MAX
  }

  function Accrual(l: Ledger.Ledger, who: nat, t: nat): int { Ledger.Accrued(Ledger.EarningsOf(l, who, t), StatementLog.Interval) }

  ghost predicate Bounded(v: Vault) { forall t :: Liabilities(v, t) <= I128_MAX }

  lemma PlanFacts(v: Vault, id: nat, key: Option<nat>)
    requires Inv(v) && PlanOf(v, id, key).Some?
    ensures id in v.accounts && SettledBy(v.accounts[id], PlanOf(v, id, key).value, v.now) && v.cfg.feeBps <= ChargeMath.BPS
    ensures Ledger.NonNegativeCredits(CreditsOf(v, id, PlanOf(v, id, key).value))
  {
    hide DecideInterval, AccountInv, EachAccount, DisputesOk, EscrowsOk, CouponsOk, LedgerOk, SettledBy, PartyObstacle, Credits;
    Known(v, id);
    KnownShape(v, id);
    SettleGuards(v.cfg, StoredAdmin(v.cfg), v.accounts[id], id, v.now, v.ledgerSeq, key);
    var p := PlanOf(v, id, key).value;
    CreditsSum(v.accounts[id], p.sub.merchant, p.amount, v.cfg.feeBps, v.cfg.treasury);
  }

  /** An item that would settle a positive charge leaves nothing behind exactly when every accrual
      it touches and the lifetime total have room; any other item never leaves anything. */
  lemma ItemLeakIff(v: Vault, id: nat, key: Option<nat>, t: nat)
    requires Inv(v) && Bounded(v)
    ensures ItemLeak(v, id, key, None, None, t) >= 0
    ensures ItemLeak(v, id, key, None, None, t) == 0 <==>
              || PlanOf(v, id, key).None? || PlanOf(v, id, key).value.sub.token != t
              || (Ledger.AccrualsFit(v.ledger, ItemCredits(v, id, key, t), t, StatementLog.Interval) && LifetimeFits(v, id, key))
  {
    hide DecideInterval, PartyObstacle, AccountInv, EachAccount, DisputesOk, EscrowsOk, CouponsOk, LedgerOk, SettleLeak, Liabilities, SettledBy, Credits;
    if id in v.accounts {
      Known(v, id);
      var a := v.accounts[id];
      var d := DecideInterval(v.cfg, StoredAdmin(v.cfg), a, id, v.now, v.ledgerSeq, key);
      if d.Settle? {
        SettleGuards(v.cfg, StoredAdmin(v.cfg), a, id, v.now, v.ledgerSeq, key);
        LeakIff(v, id, StoredAdmin(v.cfg), d.plan);
        OtherTokens(v, id, StoredAdmin(v.cfg), d.plan, t);
        PlanNotNegative(a, d.plan, v.now);
      }
    }
  }

  lemma OtherTokens(v: Vault, id: nat, settings: Admin, p: Plan, t: nat)
    requires id in v.accounts
    ensures t != p.sub.token ==> SettleLeak(v, id, settings, p, t) == 0
  {}

  lemma PlanNotNegative(a: Account, p: Plan, now: nat)
    requires SettledBy(a, p, now)
    ensures p.amount >= 0
  {}

  // ----- What an item does to the accruals -----

  lemma {:induction false} CreditElsewhere(l: Ledger.Ledger, credits: seq<(nat, int)>, token: nat, who: nat, t: nat)
    requires t != token
    ensures Accrual(Ledger.CreditAll(l, credits, token, StatementLog.Interval).0, who, t) == Accrual(l, who, t)
  {
    if credits != [] { CreditElsewhere(l, credits[..|credits| - 1], token, who, t); }
  }

  lemma {:induction false} CreditNothing(l: Ledger.Ledger, credits: seq<(nat, int)>, token: nat, who: nat, t: nat)
    requires forall i :: 0 <= i < |credits| ==> credits[i].1 <= 0
    ensures Accrual(Ledger.CreditAll(l, credits, token, StatementLog.Interval).0, who, t) == Accrual(l, who, t)
  {
    if credits != [] { CreditNothing(l, credits[..|credits| - 1], token, who, t); }
  }

  /** A settlement of nothing leaves every accrual as it is. */
  lemma CreditZero(a: Account, merchant: nat, feeBps: nat, treasury: Option<nat>, l: Ledger.Ledger, token: nat, who: nat, t: nat)
    requires ValidSplit(a.split)
    ensures Accrual(Ledger.CreditAll(l, Credits(a, merchant, 0, feeBps, treasury), token, StatementLog.Interval).0, who, t) == Accrual(l, who, t)
  {
    hide ValidSplit, PayeeCredits, Accrual;
    var credits := Credits(a, merchant, 0, feeBps, treasury);
    if feeBps > 0 && treasury.Some? {
      assert ChargeMath.FeeSplit(0, feeBps, true) == (-1, 1);
      var payees := PayeeCredits(a, merchant, -1);
      NegativeNetPostsNothing(a, merchant, l, token, StatementLog.Interval);
      assert credits == payees + [(treasury.value, 1)];
      assert credits[..|credits| - 1] == payees;
      CreditNothing(l, payees, token, who, t);
    } else {
      CreditsSum(a, merchant, 0, feeBps, treasury);
      NothingToPost(credits);
      CreditNothing(l, credits, token, who, t);
    }
  }

  lemma SettleLedger(v: Vault, id: nat, settings: Admin, p: Plan, key: Option<nat>)
    requires id in v.accounts
    ensures var credits := Credits(v.accounts[id], p.sub.merchant, p.amount, settings.feeBps, settings.treasury);
            SettleInterval(v, id, settings, p, key).0.ledger == Ledger.CreditAll(v.ledger, credits, p.sub.token, StatementLog.Interval).0
  {
    hide Credits, RecordInterval;
  }

  /** An item whose credits fit raises every accrual by what it credits. */
  lemma SettleAccrues(v: Vault, id: nat, p: Plan, key: Option<nat>, who: nat, t: nat)
    requires Inv(v) && Bounded(v) && id in v.accounts && SettledBy(v.accounts[id], p, v.now) && p.amount > 0
    requires Ledger.AccrualsFit(v.ledger, CreditsOf(v, id, p), p.sub.token, StatementLog.Interval)
    ensures Accrual(SettleInterval(v, id, StoredAdmin(v.cfg), p, key).0.ledger, who, t)
         == Accrual(v.ledger, who, t) + (if t == p.sub.token then Ledger.CreditedTo(CreditsOf(v, id, p), who) else 0)
  {
    hide Credits, Accrual, SettleInterval, Liabilities;
    var credits, token := CreditsOf(v, id, p), p.sub.token;
    SettledTerms(v, id, p);
    SettleLedger(v, id, StoredAdmin(v.cfg), p, key);
    if t != token {
      CreditElsewhere(v.ledger, credits, token, who, t);
    } else {
      InvParts(v);
      CreditsSum(v.accounts[id], p.sub.merchant, p.amount, v.cfg.feeBps, v.cfg.treasury);
      CoveredByPrepaid(v, id, p.amount);
      Ledger.CompleteIffAccrualsFit(v.ledger, credits, token, StatementLog.Interval);
      CompleteAccrual(v.ledger, credits, token, who);
    }
  }

  lemma CompleteAccrual(l: Ledger.Ledger, credits: seq<(nat, int)>, token: nat, who: nat)
    requires Ledger.CreditAll(l, credits, token, StatementLog.Interval).1.None?
    ensures Accrual(Ledger.CreditAll(l, credits, token, StatementLog.Interval).0, who, token) == Accrual(l, who, token) + Ledger.CreditedTo(credits, who)
  {
    Ledger.CompleteEffect(l, credits, token, StatementLog.Interval, who);
  }

  /** Balances have room for what a prepaid balance covers. */
  lemma CoveredByPrepaid(v: Vault, id: nat, amount: int)
    requires Inv(v) && Bounded(v) && id in v.accounts && amount <= v.accounts[id].sub.prepaid
    ensures Ledger.BalanceTotal(v.ledger, v.accounts[id].sub.token) + amount <= I128_MAX
  {
    hide Inv;
    InvParts(v);
    PartsBelowLiabilities(v, v.accounts[id].sub.token);
    assert Liabilities(v, v.accounts[id].sub.token) <= I128_MAX;
  }

  /** Room for everything an item would credit and debit. */
  ghost predicate ItemFits(v: Vault, id: nat, key: Option<nat>) {
    && (forall t :: Ledger.AccrualsFit(v.ledger, ItemCredits(v, id, key, t), t, StatementLog.Interval))
    && LifetimeFits(v, id, key)
  }

  lemma CarryLedger(v: Vault, id: nat, settings: Admin, key: Option<nat>, d: Decision)
    requires id in v.accounts
    ensures Carry(v, id, settings, key, d).0.ledger == (if d.Settle? then SettleInterval(v, id, settings, d.plan, key).0.ledger else v.ledger)
  {
    hide SettleInterval;
  }

  lemma SettleAny(v: Vault, id: nat, p: Plan, key: Option<nat>, who: nat, t: nat)
    requires Inv(v) && Bounded(v) && id in v.accounts && SettledBy(v.accounts[id], p, v.now)
    requires p.amount > 0 ==> Ledger.AccrualsFit(v.ledger, CreditsOf(v, id, p), p.sub.token, StatementLog.Interval)
    ensures Accrual(SettleInterval(v, id, StoredAdmin(v.cfg), p, key).0.ledger, who, t)
         == Accrual(v.ledger, who, t) + (if p.amount > 0 && t == p.sub.token then Ledger.CreditedTo(CreditsOf(v, id, p), who) else 0)
  {
    hide Inv, Accrual, SettleInterval, Bounded, Credits;
    SettledTerms(v, id, p);
    if p.amount > 0 {
      SettleAccrues(v, id, p, key, who, t);
    } else {
      SettleLedger(v, id, StoredAdmin(v.cfg), p, key);
      CreditZero(v.accounts[id], p.sub.merchant, v.cfg.feeBps, v.cfg.treasury, v.ledger, p.sub.token, who, t);
    }
  }

  lemma ItemAccrues(v: Vault, id: nat, key: Option<nat>, who: nat, t: nat)
    requires Inv(v) && Bounded(v) && ItemFits(v, id, key)
    ensures Accrual(ChargeOne(v, id, key, None, None).vault.ledger, who, t)
         == Accrual(v.ledger, who, t) + Ledger.CreditedTo(ItemCredits(v, id, key, t), who)
  {
    hide DecideInterval, PartyObstacle, AccountInv, EachAccount, DisputesOk, EscrowsOk, CouponsOk, LedgerOk, Bounded, SettledBy, Credits, Carry, Accrual, Ledger.AccrualsFit;
    if id in v.accounts {
      var a := v.accounts[id];
      var d := DecideInterval(v.cfg, StoredAdmin(v.cfg), a, id, v.now, v.ledgerSeq, key);
      CarryLedger(v, id, StoredAdmin(v.cfg), key, d);
      if d.Settle? {
        Known(v, id);
        SettleGuards(v.cfg, StoredAdmin(v.cfg), a, id, v.now, v.ledgerSeq, key);
        if PlanOf(v, id, key).Some? {
          assert ItemCredits(v, id, key, d.plan.sub.token) == CreditsOf(v, id, d.plan);
          SettleAny(v, id, d.plan, key, who, t);
        } else if ChargeOne(v, id, key, None, None).vault.ledger != v.ledger {
          SettleAny(v, id, d.plan, key, who, t);
        }
      }
    }
  }

  // ----- A whole batch -----

  /** What the first n items of a batch would credit in a token, judged by the state before it. */
  function BatchCredits(v: Vault, ids: seq<nat>, keys: Option<seq<nat>>, n: nat, t: nat): seq<(nat, int)>
    requires n <= |ids|
  {
    if n == 0 then [] else BatchCredits(v, ids, keys, n - 1, t) + ItemCredits(v, ids[n - 1], KeyAt(keys, n - 1), t)
  }

  /** Before the call: every party's accrual has room for what the batch would credit it, and every
      lifetime total for what the batch would charge. */
  ghost predicate BatchFits(v: Vault, ids: seq<nat>, keys: Option<seq<nat>>, n: nat)
    requires n <= |ids|
  {
    && (forall who, t :: Accrual(v.ledger, who, t) + Ledger.CreditedTo(BatchCredits(v, ids, keys, n, t), who) <= I128_MAX)
    && (forall k :: 0 <= k < n ==> LifetimeFits(v, ids[k], KeyAt(keys, k)))
  }

  lemma {:induction false} CreditedToJoin(a: seq<(nat, int)>, b: seq<(nat, int)>, who: nat)
    ensures Ledger.CreditedTo(a + b, who) == Ledger.CreditedTo(a, who) + Ledger.CreditedTo(b, who)
  {
    if b == [] {
      assert a + b == a;
    } else {
      CreditedToJoin(a, b[..|b| - 1], who);
      assert (a + b)[..|a + b| - 1] == a + b[..|b| - 1];
    }
  }

  /** An item without a predecessor for the same subscription makes the plan it would have made
      before the batch. */
  lemma PlanUnmoved(v: Vault, ids: seq<nat>, keys: Option<seq<nat>>, n: nat)
    requires n < |ids| && !HasDuplicate(ids)
    ensures var w := BatchRun(v, ids, keys, None, None, n).vault;
            && PlanOf(w, ids[n], KeyAt(keys, n)) == PlanOf(v, ids[n], KeyAt(keys, n))
            && (forall t :: ItemCredits(w, ids[n], KeyAt(keys, n), t) == ItemCredits(v, ids[n], KeyAt(keys, n), t))
            && LifetimeFits(w, ids[n], KeyAt(keys, n)) == LifetimeFits(v, ids[n], KeyAt(keys, n))
  {
    hide BatchRun, DecideInterval, PartyObstacle, Credits;
    BatchRunFrame(v, ids, keys, None, None, n);
    assert ids[n] !in ids[..n];
  }

  /** The credits of an item are not negative. */
  lemma ItemCreditsNonNegative(v: Vault, id: nat, key: Option<nat>, t: nat, who: nat)
    requires Inv(v)
    ensures Ledger.NonNegativeCredits(ItemCredits(v, id, key, t)) && Ledger.CreditedTo(ItemCredits(v, id, key, t), who) >= 0
  {
    hide Inv, PlanOf, CreditsOf;
    if PlanOf(v, id, key).Some? { PlanFacts(v, id, key); }
    Ledger.CreditedToBounds(ItemCredits(v, id, key, t), who);
  }

  lemma FitsBefore(v: Vault, ids: seq<nat>, keys: Option<seq<nat>>, n: nat)
    requires 0 < n <= |ids| && Inv(v) && BatchFits(v, ids, keys, n)
    ensures BatchFits(v, ids, keys, n - 1)
  {
    hide Inv, LifetimeFits, ItemCredits, Accrual;
    forall who, t ensures Accrual(v.ledger, who, t) + Ledger.CreditedTo(BatchCredits(v, ids, keys, n - 1, t), who) <= I128_MAX {
      var last := ItemCredits(v, ids[n - 1], KeyAt(keys, n - 1), t);
      CreditedToJoin(BatchCredits(v, ids, keys, n - 1, t), last, who);
      ItemCreditsNonNegative(v, ids[n - 1], KeyAt(keys, n - 1), t, who);
      assert Accrual(v.ledger, who, t) + Ledger.CreditedTo(BatchCredits(v, ids, keys, n, t), who) <= I128_MAX;
    }
  }

  /** Every accrual has grown by what the batch so far would credit. */
  ghost predicate AccruedBy(v: Vault, w: Vault, ids: seq<nat>, keys: Option<seq<nat>>, n: nat)
    requires n <= |ids|
  {
    forall who, t :: Accrual(w.ledger, who, t) == Accrual(v.ledger, who, t) + Ledger.CreditedTo(BatchCredits(v, ids, keys, n, t), who)
  }

  /** After items that fit, the next one fits exactly when the batch including it does. */
  lemma NextFitsIff(v: Vault, ids: seq<nat>, keys: Option<seq<nat>>, n: nat)
    requires n < |ids| && Inv(v) && !HasDuplicate(ids) && BatchFits(v, ids, keys, n)
    requires AccruedBy(v, BatchRun(v, ids, keys, None, None, n).vault, ids, keys, n)
    ensures ItemFits(BatchRun(v, ids, keys, None, None, n).vault, ids[n], KeyAt(keys, n)) <==> BatchFits(v, ids, keys, n + 1)
  {
    hide Inv, LifetimeFits, ItemCredits, Accrual, BatchRun, HasDuplicate, PlanOf;
    var w, id, key := BatchRun(v, ids, keys, None, None, n).vault, ids[n], KeyAt(keys, n);
    PlanUnmoved(v, ids, keys, n);
    forall who, t ensures Accrual(v.ledger, who, t) + Ledger.CreditedTo(BatchCredits(v, ids, keys, n + 1, t), who) == Accrual(w.ledger, who, t) + Ledger.CreditedTo(ItemCredits(v, id, key, t), who) {
      CreditedToJoin(BatchCredits(v, ids, keys, n, t), ItemCredits(v, id, key, t), who);
    }
    forall t ensures (forall who :: Accrual(w.ledger, who, t) + Ledger.CreditedTo(ItemCredits(v, id, key, t), who) <= I128_MAX) <==> Ledger.AccrualsFit(w.ledger, ItemCredits(w, id, key, t), t, StatementLog.Interval) {
      assert forall who :: Accrual(w.ledger, who, t) <= I128_MAX;
      ItemCreditsNonNegative(v, id, key, t, 0);
      EveryoneFitsIff(w.ledger, ItemCredits(v, id, key, t), t);
    }
    assert BatchFits(v, ids, keys, n + 1) <==> (forall who, t :: Accrual(w.ledger, who, t) + Ledger.CreditedTo(ItemCredits(v, id, key, t), who) <= I128_MAX) && LifetimeFits(v, id, key);
  }

  /** Room for the parties listed is room for everybody. */
  lemma EveryoneFitsIff(l: Ledger.Ledger, credits: seq<(nat, int)>, t: nat)
    requires Ledger.NonNegativeCredits(credits) && forall who :: Accrual(l, who, t) <= I128_MAX
    ensures (forall who :: Accrual(l, who, t) + Ledger.CreditedTo(credits, who) <= I128_MAX) <==> Ledger.AccrualsFit(l, credits, t, StatementLog.Interval)
  {
    forall who | Accrual(l, who, t) + Ledger.CreditedTo(credits, who) > I128_MAX
      ensures exists i :: 0 <= i < |credits| && credits[i].0 == who
    {
      Ledger.CreditedToBounds(credits, who);
    }
  }

  // ----- The batch leaves nothing behind exactly when it fits -----

  lemma SolventIsBounded(v: Vault)
    requires Solvent(v)
    ensures Bounded(v)
  {
    forall t ensures Liabilities(v, t) <= I128_MAX { assert SolventIn(v, t); }
  }

  lemma ItemLeaksNothingIff(v: Vault, id: nat, key: Option<nat>)
    requires Inv(v) && Bounded(v)
    ensures ItemFits(v, id, key) <==> (forall t :: ItemLeak(v, id, key, None, None, t) == 0)
    ensures forall t :: ItemLeak(v, id, key, None, None, t) >= 0
  {
    hide Inv, Bounded, ItemLeak, PlanOf, CreditsOf;
    forall t
      ensures ItemLeak(v, id, key, None, None, t) >= 0
      ensures ItemLeak(v, id, key, None, None, t) == 0 <==>
                || PlanOf(v, id, key).None? || PlanOf(v, id, key).value.sub.token != t
                || (Ledger.AccrualsFit(v.ledger, ItemCredits(v, id, key, t), t, StatementLog.Interval) && LifetimeFits(v, id, key))
    {
      ItemLeakIff(v, id, key, t);
    }
    var plan := PlanOf(v, id, key);
    if plan.Some? && (forall t :: ItemLeak(v, id, key, None, None, t) == 0) {
      assert ItemLeak(v, id, key, None, None, plan.value.sub.token) == 0;
    }
  }

  /** Items that fit leave nothing behind, never abort, keep the contract solvent, and raise the
      accruals by exactly what they were expected to. */
  lemma {:induction false} FittingItems(v: Vault, ids: seq<nat>, keys: Option<seq<nat>>, n: nat)
    requires n <= |ids| && Inv(v) && Solvent(v) && !HasDuplicate(ids) && BatchFits(v, ids, keys, n)
    ensures LeakFree(v, ids, keys, None, None, n)
    ensures AccruedBy(v, BatchRun(v, ids, keys, None, None, n).vault, ids, keys, n)
    ensures Solvent(BatchRun(v, ids, keys, None, None, n).vault) && !BatchRun(v, ids, keys, None, None, n).trapped
  {
    hide Inv, Solvent, ChargeOne, ItemLeak, ItemFits, ItemCredits, Accrual, HasDuplicate, BatchFits;
    if n > 0 {
      FitsBefore(v, ids, keys, n);
      FittingItems(v, ids, keys, n - 1);
      NextFitsIff(v, ids, keys, n - 1);
      BatchRunInv(v, ids, keys, None, None, n - 1);
      var w, id, key := BatchRun(v, ids, keys, None, None, n - 1).vault, ids[n - 1], KeyAt(keys, n - 1);
      SolventIsBounded(w);
      ItemLeaksNothingIff(w, id, key);
      NoCacheEver(v, ids, keys, n - 1);
      NextAccrues(v, ids, keys, n);
      assert forall t :: BatchLeak(v, ids, keys, None, None, n, t) == BatchLeak(v, ids, keys, None, None, n - 1, t);
    }
    LeakFreeSolvent(v, ids, keys, None, None, n);
  }

  lemma NextAccrues(v: Vault, ids: seq<nat>, keys: Option<seq<nat>>, n: nat)
    requires 0 < n <= |ids| && !HasDuplicate(ids) && AccruedBy(v, BatchRun(v, ids, keys, None, None, n - 1).vault, ids, keys, n - 1)
    requires var b := BatchRun(v, ids, keys, None, None, n - 1); !b.trapped && Inv(b.vault) && Bounded(b.vault) && ItemFits(b.vault, ids[n - 1], KeyAt(keys, n - 1))
    ensures AccruedBy(v, BatchRun(v, ids, keys, None, None, n).vault, ids, keys, n)
  {
    hide Inv, Bounded, ChargeOne, ItemFits, ItemCredits, Accrual, HasDuplicate;
    var w, id, key := BatchRun(v, ids, keys, None, None, n - 1).vault, ids[n - 1], KeyAt(keys, n - 1);
    PlanUnmoved(v, ids, keys, n - 1);
    assert BatchRun(v, ids, keys, None, None, n - 1).cache == None by { NoCacheEver(v, ids, keys, n - 1); }
    var w' := BatchRun(v, ids, keys, None, None, n).vault;
    forall who, t ensures Accrual(w'.ledger, who, t) == Accrual(v.ledger, who, t) + Ledger.CreditedTo(BatchCredits(v, ids, keys, n, t), who) {
      ItemAccrues(w, id, key, who, t);
      CreditedToJoin(BatchCredits(v, ids, keys, n - 1, t), ItemCredits(v, id, key, t), who);
    }
  }

  lemma NoCacheEver(v: Vault, ids: seq<nat>, keys: Option<seq<nat>>, n: nat)
    requires n <= |ids|
    ensures BatchRun(v, ids, keys, None, None, n).cache == None
  {
    hide ChargeOne, BatchRun;
    CachedBatchAgrees(v, ids, keys, n);
  }

  lemma SettleLeakNonNegative(v: Vault, id: nat, settings: Admin, p: Plan, t: nat)
    requires Inv(v) && id in v.accounts && SettledBy(v.accounts[id], p, v.now)
    ensures SettleLeak(v, id, settings, p, t) >= 0
  {
    hide Credits, AccountInv, EachAccount, DisputesOk, EscrowsOk, CouponsOk;
    Ledger.CreditAllKeeps(v.ledger, Credits(v.accounts[id], p.sub.merchant, p.amount, settings.feeBps, settings.treasury), t, StatementLog.Interval);
  }

  lemma ItemLeakNonNegative(v: Vault, id: nat, key: Option<nat>, t: nat)
    requires Inv(v)
    ensures ItemLeak(v, id, key, None, None, t) >= 0
  {
    hide DecideInterval, PartyObstacle, AccountInv, EachAccount, DisputesOk, EscrowsOk, CouponsOk, LedgerOk, SettleLeak, SettledBy;
    if id in v.accounts {
      var a := v.accounts[id];
      Known(v, id);
      var d := DecideInterval(v.cfg, StoredAdmin(v.cfg), a, id, v.now, v.ledgerSeq, key);
      if d.Settle? {
        SettleGuards(v.cfg, StoredAdmin(v.cfg), a, id, v.now, v.ledgerSeq, key);
        SettleLeakNonNegative(v, id, StoredAdmin(v.cfg), d.plan, t);
      }
    }
  }

  /** What later items do never makes up for what an earlier one left behind. */
  lemma BatchLeakGrows(v: Vault, ids: seq<nat>, keys: Option<seq<nat>>, n: nat, t: nat)
    requires 0 < n <= |ids| && Inv(v)
    ensures BatchLeak(v, ids, keys, None, None, n, t) >= BatchLeak(v, ids, keys, None, None, n - 1, t)
  {
    hide Inv, ItemLeak, BatchRun;
    BatchRunInv(v, ids, keys, None, None, n - 1);
    NoCacheEver(v, ids, keys, n - 1);
    ItemLeakNonNegative(BatchRun(v, ids, keys, None, None, n - 1).vault, ids[n - 1], KeyAt(keys, n - 1), t);
  }

  lemma NothingFits(v: Vault, ids: seq<nat>, keys: Option<seq<nat>>)
    requires Inv(v)
    ensures BatchFits(v, ids, keys, 0)
  {
    hide AccountsOk, DisputesOk, EscrowsOk, CouponsOk;
  }

  /** A batch that does not fit leaves something behind. */
  lemma {:induction false} UnfitLeaks(v: Vault, ids: seq<nat>, keys: Option<seq<nat>>, n: nat)
    requires n <= |ids| && Inv(v) && Solvent(v) && !HasDuplicate(ids) && !BatchFits(v, ids, keys, n)
    ensures exists t :: BatchLeak(v, ids, keys, None, None, n, t) > 0
  {
    hide Inv, Solvent, ChargeOne, ItemLeak, ItemFits, HasDuplicate, BatchFits, AccruedBy;
    NothingFits(v, ids, keys);
    if n > 0 {
      if BatchFits(v, ids, keys, n - 1) {
        FittingItems(v, ids, keys, n - 1);
        NextFitsIff(v, ids, keys, n - 1);
        BatchRunInv(v, ids, keys, None, None, n - 1);
        NoCacheEver(v, ids, keys, n - 1);
        var w := BatchRun(v, ids, keys, None, None, n - 1).vault;
        SolventIsBounded(w);
        ItemLeaksNothingIff(w, ids[n - 1], KeyAt(keys, n - 1));
        var t :| ItemLeak(w, ids[n - 1], KeyAt(keys, n - 1), None, None, t) != 0;
        assert BatchLeak(v, ids, keys, None, None, n - 1, t) == 0;
        assert BatchLeak(v, ids, keys, None, None, n, t) > 0;
      } else {
        UnfitLeaks(v, ids, keys, n - 1);
        var t :| BatchLeak(v, ids, keys, None, None, n - 1, t) > 0;
        BatchLeakGrows(v, ids, keys, n, t);
      }
    }
  }

  /** What the entrypoint's loop, with its cache, leaves behind in a token. */
  function LeftBehind(v: Vault, ids: seq<nat>, keys: Option<seq<nat>>, t: nat): int {
    BatchLeak(v, ids, keys, ReadAdmin(v.cfg), Some(map[]), |ids|, t)
  }

  ghost predicate Conserves(v: Vault, w: Vault) { forall t :: Surplus(w, t) == Surplus(v, t) }

  /** A batch without repeated ids leaves nothing behind, in any token, exactly when it fits. */
  lemma BatchLeakIff(v: Vault, ids: seq<nat>, keys: Option<seq<nat>>)
    requires Inv(v) && Solvent(v) && !HasDuplicate(ids)
    ensures (forall t :: LeftBehind(v, ids, keys, t) == 0) <==> BatchFits(v, ids, keys, |ids|)
    ensures forall t :: LeftBehind(v, ids, keys, t) >= 0
  {
    hide Inv, Solvent, HasDuplicate, BatchFits, BatchLeak;
    forall t
      ensures LeftBehind(v, ids, keys, t) == BatchLeak(v, ids, keys, None, None, |ids|, t) >= 0
    {
      BatchLeakAgrees(v, ids, keys, |ids|, t);
      LeaksNonNegative(v, ids, keys, |ids|, t);
    }
    if BatchFits(v, ids, keys, |ids|) {
      FittingItems(v, ids, keys, |ids|);
      forall t ensures LeftBehind(v, ids, keys, t) == 0 { assert BatchLeak(v, ids, keys, None, None, |ids|, t) == 0; }
    } else {
      UnfitLeaks(v, ids, keys, |ids|);
      var t :| BatchLeak(v, ids, keys, None, None, |ids|, t) > 0;
      assert LeftBehind(v, ids, keys, t) > 0;
    }
  }

  /** The batches the entrypoint does not turn away. */
  predicate Accepts(v: Vault, ids: seq<nat>, keys: Option<seq<nat>>) {
    && !v.cfg.emergencyStop
    && 0 < |ids| <= BATCH_MAX_SIZE
    && (keys.Some? ==> |keys.value| == |ids|)
    && !HasDuplicate(ids)
  }

  lemma {:induction false} LeaksNonNegative(v: Vault, ids: seq<nat>, keys: Option<seq<nat>>, n: nat, t: nat)
    requires n <= |ids| && Inv(v)
    ensures BatchLeak(v, ids, keys, None, None, n, t) >= 0
  {
    hide Inv, BatchRun, ItemLeak;
    if n > 0 {
      LeaksNonNegative(v, ids, keys, n - 1, t);
      BatchLeakGrows(v, ids, keys, n, t);
    }
  }

  /** No item of a batch fails in the token contract, even after items that left something behind:
      the prepaid balances stay covered throughout. */
  lemma {:induction false} ItemsNeverTrap(v: Vault, ids: seq<nat>, keys: Option<seq<nat>>, n: nat)
    requires n <= |ids| && Inv(v) && PrepaidCovered(v)
    ensures !BatchRun(v, ids, keys, None, None, n).trapped && PrepaidCovered(BatchRun(v, ids, keys, None, None, n).vault)
  {
    hide Inv, PrepaidCovered, ChargeOne;
    if n > 0 {
      ItemsNeverTrap(v, ids, keys, n - 1);
      BatchRunInv(v, ids, keys, None, None, n - 1);
      NoCacheEver(v, ids, keys, n - 1);
      ChargeNeverTraps(BatchRun(v, ids, keys, None, None, n - 1).vault, ids[n - 1], KeyAt(keys, n - 1), None, None);
    }
  }

  /** From a solvent state every batch the entrypoint takes up goes through, whether or not it fits. */
  lemma BatchNeverAborts(v: Vault, ids: seq<nat>, keys: Option<seq<nat>>)
    requires Inv(v) && Solvent(v) && Accepts(v, ids, keys)
    ensures BatchCharge(v, ids, keys).Ok?
  {
    hide Inv, Solvent, PrepaidCovered, BatchRun, HasDuplicate;
    SolventCoversPrepaid(v);
    ItemsNeverTrap(v, ids, keys, |ids|);
    CachedBatchAgrees(v, ids, keys, |ids|);
  }

  lemma BatchLosesWhatIsLeft(v: Vault, ids: seq<nat>, keys: Option<seq<nat>>, t: nat)
    requires Inv(v) && Accepts(v, ids, keys) && BatchCharge(v, ids, keys).Ok?
    ensures Surplus(BatchCharge(v, ids, keys).value.0, t) == Surplus(v, t) - LeftBehind(v, ids, keys, t)
  {
    hide Inv, Surplus, HasDuplicate, BatchRun, BatchLeak;
    BatchSurplus(v, ids, keys, t);
  }

  /** A batch that fits keeps the contract solvent. */
  lemma BatchSolvent(v: Vault, ids: seq<nat>, keys: Option<seq<nat>>)
    requires Inv(v) && Solvent(v) && Accepts(v, ids, keys) && BatchFits(v, ids, keys, |ids|)
    ensures BatchCharge(v, ids, keys).Ok? && Solvent(BatchCharge(v, ids, keys).value.0)
  {
    hide Inv, Solvent, HasDuplicate, BatchFits, BatchRun;
    FittingItems(v, ids, keys, |ids|);
    CachedBatchAgrees(v, ids, keys, |ids|);
  }

  /** From a solvent state a batch goes through, and conserves every token exactly when it fits. */
  lemma BatchConservesIff(v: Vault, ids: seq<nat>, keys: Option<seq<nat>>)
    requires Inv(v) && Solvent(v) && Accepts(v, ids, keys)
    ensures BatchCharge(v, ids, keys).Ok?
    ensures Conserves(v, BatchCharge(v, ids, keys).value.0) <==> BatchFits(v, ids, keys, |ids|)
  {
    hide Inv, Solvent, Surplus, HasDuplicate, BatchFits, BatchCharge, LeftBehind;
    BatchNeverAborts(v, ids, keys);
    BatchLeakIff(v, ids, keys);
    forall t ensures Surplus(BatchCharge(v, ids, keys).value.0, t) == Surplus(v, t) - LeftBehind(v, ids, keys, t) {
      BatchLosesWhatIsLeft(v, ids, keys, t);
    }
  }

  // ----- Runs -----

  /** A batch the entrypoint takes up fits. */
  ghost predicate Fits(v: Vault, op: Op) {
    op.Batch? && Accepts(v, op.ids, op.keys) ==> BatchFits(v, op.ids, op.keys, |op.ids|)
  }

  ghost predicate AllFit(v: Vault, ops: seq<Op>) {
    ops != [] ==> AllFit(v, ops[..|ops| - 1]) && Fits(Run(v, ops[..|ops| - 1]), ops[|ops| - 1])
  }

  lemma StepIsBatch(v: Vault, ids: seq<nat>, keys: Option<seq<nat>>)
    ensures Step(v, Batch(ids, keys)) == KeptFirst(v, BatchCharge(v, ids, keys))
    ensures !Accepts(v, ids, keys) ==> Step(v, Batch(ids, keys)) == v
  {
    hide HasDuplicate, BatchRun;
  }

  lemma FittingStep(v: Vault, op: Op)
    requires Inv(v) && Solvent(v) && Fits(v, op)
    ensures Solvent(Step(v, op))
    ensures !RotatesOntoItself(op) ==> Conserves(v, Step(v, op))
  {
    hide Inv, Solvent, Step, Surplus, Accepts, BatchFits, BatchCharge, RotateMerchant;
    if op.Batch? {
      StepIsBatch(v, op.ids, op.keys);
      assert op == Batch(op.ids, op.keys);
      if Accepts(v, op.ids, op.keys) {
        BatchSolvent(v, op.ids, op.keys);
        BatchConservesIff(v, op.ids, op.keys);
      }
    } else {
      StepSolvent(v, op);
      forall t ensures !RotatesOntoItself(op) ==> Surplus(Step(v, op), t) == Surplus(v, t) { StepSurplus(v, op, t); }
    }
  }

  /** A solvent contract stays solvent through every run whose batches fit, so at every point of
      it no payout can fail in the token contract. */
  lemma {:induction false} RunSolvent(v: Vault, ops: seq<Op>)
    requires Inv(v) && Solvent(v) && IdsLast(v, ops) && AllFit(v, ops)
    ensures Solvent(Run(v, ops)) && Inv(Run(v, ops))
  {
    hide Inv, Solvent, Step, Fits;
    RunInv(v, ops);
    if ops != [] {
      RunSolvent(v, ops[..|ops| - 1]);
      FittingStep(Run(v, ops[..|ops| - 1]), ops[|ops| - 1]);
    }
  }

  /** Runs without self-rotation conserve every token exactly, batches included as long as they
      fit; without batches not even solvency is needed. */
  lemma {:induction false} RunConserves(v: Vault, ops: seq<Op>, t: nat)
    requires Inv(v) && IdsLast(v, ops) && NoSelfRotation(ops)
    requires (forall i :: 0 <= i < |ops| ==> !ops[i].Batch?) || (Solvent(v) && AllFit(v, ops))
    ensures Surplus(Run(v, ops), t) == Surplus(v, t)
  {
    hide Inv, Step, Surplus, Solvent, Fits;
    if forall i :: 0 <= i < |ops| ==> !ops[i].Batch? {
      RunSurplus(v, ops, t);
      NoGain(v, ops, t);
    } else if ops != [] {
      var n := |ops| - 1;
      RunConserves(v, ops[..n], t);
      RunSolvent(v, ops[..n]);
      FittingStep(Run(v, ops[..n]), ops[n]);
    }
  }

  // ----- The exact condition for a run -----

  lemma StepConservesIff(v: Vault, op: Op)
    requires Inv(v) && Solvent(v) && !RotatesOntoItself(op)
    ensures Conserves(v, Step(v, op)) <==> Fits(v, op)
    ensures Conserves(v, Step(v, op)) ==> Solvent(Step(v, op))
  {
    hide Inv, Solvent, Step, Surplus, Accepts, BatchFits, BatchCharge;
    if op.Batch? {
      StepIsBatch(v, op.ids, op.keys);
      assert op == Batch(op.ids, op.keys);
      if Accepts(v, op.ids, op.keys) {
        BatchConservesIff(v, op.ids, op.keys);
        if BatchFits(v, op.ids, op.keys, |op.ids|) { BatchSolvent(v, op.ids, op.keys); }
      }
    } else {
      FittingStep(v, op);
    }
  }

  /** No run without self-rotation ever raises the difference. */
  lemma {:induction false} RunNeverGains(v: Vault, ops: seq<Op>, t: nat)
    requires Inv(v) && IdsLast(v, ops) && NoSelfRotation(ops)
    ensures Surplus(Run(v, ops), t) <= Surplus(v, t)
  {
    hide Inv, Step, Surplus, Gain;
    if ops != [] {
      var n := |ops| - 1;
      RunNeverGains(v, ops[..n], t);
      RunInv(v, ops[..n]);
      StepNeverGains(Run(v, ops[..n]), ops[n], t);
    }
  }

  lemma StepNeverGains(v: Vault, op: Op, t: nat)
    requires Inv(v) && !RotatesOntoItself(op)
    ensures Surplus(Step(v, op), t) <= Surplus(v, t)
  {
    hide Inv, Step, Surplus, BatchLeak, BatchCharge;
    StepSurplus(v, op, t);
    if op.Batch? {
      BatchLeakAgrees(v, op.ids, op.keys, |op.ids|, t);
      LeaksNonNegative(v, op.ids, op.keys, |op.ids|, t);
    }
  }

  /** From a solvent state, a run without self-rotation conserves every token if and only if every
      batch of it that the entrypoint takes up fits the state it is called in. */
  lemma {:induction false} RunConservesIff(v: Vault, ops: seq<Op>)
    requires Inv(v) && Solvent(v) && IdsLast(v, ops) && NoSelfRotation(ops)
    ensures Conserves(v, Run(v, ops)) <==> AllFit(v, ops)
    ensures Conserves(v, Run(v, ops)) ==> Solvent(Run(v, ops))
  {
    hide Inv, Solvent, Step, Surplus, Fits;
    if ops != [] {
      var n := |ops| - 1;
      RunConservesIff(v, ops[..n]);
      RunInv(v, ops[..n]);
      forall t
        ensures Surplus(Run(v, ops[..n]), t) <= Surplus(v, t)
        ensures Surplus(Run(v, ops), t) <= Surplus(Run(v, ops[..n]), t)
      {
        RunNeverGains(v, ops[..n], t);
        StepNeverGains(Run(v, ops[..n]), ops[n], t);
      }
      if Conserves(v, Run(v, ops)) {
        forall t ensures Surplus(Run(v, ops[..n]), t) == Surplus(v, t) && Surplus(Run(v, ops), t) == Surplus(Run(v, ops[..n]), t) {
          assert Surplus(Run(v, ops), t) == Surplus(v, t);
        }
      }
      if Conserves(v, Run(v, ops[..n])) { StepConservesIff(Run(v, ops[..n]), ops[n]); }
    }
  }
}
