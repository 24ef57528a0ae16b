/** Conservation. Every call leaves the difference between what the contract holds and what it
    owes unchanged in every token, with two exceptions this module measures exactly: a batch item
    refused after its credits were written, and a merchant rotated onto its own address. */
module VaultConservation {
  import opened Base
  import opened StateMachine
  import opened Accounts
  import opened AccountLaws
  import opened Vault
  import opened VaultTotals
  import opened VaultInvariant
  import ChargeMath
  import IdemRing
  import Snapshots
  import StatementLog
  import UsageMeter
  import Ledger
  import Sums

  // ----- What a refused settlement leaves behind -----

  /** What a settlement adds to balances without a matching debit: everything posted before a
      refused credit, or all of it when the lifetime total no longer fits. */
  function SettleLeak(v: Vault, id: nat, settings: Admin, p: Plan, t: nat): int
    requires id in v.accounts
  {
    var credits := Credits(v.accounts[id], p.sub.merchant, p.amount, settings.feeBps, settings.treasury);
    if t != p.sub.token then 0
    else if Ledger.CreditAll(v.ledger, credits, t, StatementLog.Interval).1.Some? then Ledger.Posted(v.ledger, credits, t, StatementLog.Interval)
    else if !InI128(p.sub.lifetimeCharged + p.amount) then p.amount
    else 0
  }

  lemma SettleIntervalSurplus(v: Vault, id: nat, settings: Admin, p: Plan, key: Option<nat>, t: nat)
    requires Inv(v) && id in v.accounts && SettledBy(v.accounts[id], p, v.now)
    ensures Surplus(SettleInterval(v, id, settings, p, key).0, t) == Surplus(v, t) - SettleLeak(v, id, settings, p, t)
  {
    hide Inv, RecordInterval, Credits, Liabilities, SettledBy;
    var a := v.accounts[id];
    var credits := Credits(a, p.sub.merchant, p.amount, settings.feeBps, settings.treasury);
    var (ledger, e) := Ledger.CreditAll(v.ledger, credits, p.sub.token, StatementLog.Interval);
    SettledTerms(v, id, p);
    Ledger.CreditAllTotal(v.ledger, credits, p.sub.token, StatementLog.Interval, t);
    LedgerSurplus(v, ledger, t);
    if e.None? {
      Ledger.CompletePosts(v.ledger, credits, p.sub.token, StatementLog.Interval);
      CreditsSum(a, p.sub.merchant, p.amount, settings.feeBps, settings.treasury);
      RecordIntervalFrame(v.cfg, a, p, id, v.now, key);
      SetAccountSurplus(v.(ledger := ledger), id, RecordInterval(v.cfg, a, p, id, v.now, key).0, t);
    }
  }

  lemma SettledTerms(v: Vault, id: nat, p: Plan)
    requires Inv(v) && id in v.accounts && SettledBy(v.accounts[id], p, v.now)
    ensures p.sub.token == v.accounts[id].sub.token && p.sub.lifetimeCharged == v.accounts[id].sub.lifetimeCharged
    ensures ValidSplit(v.accounts[id].split) && 0 <= p.amount <= v.accounts[id].sub.prepaid
    ensures 0 <= p.sub.lifetimeCharged <= I128_MAX
  {
    KnownShape(v, id);
  }

  /** A settlement conserves exactly when nothing is charged or every accrual and the lifetime
      total it raises stay in range; otherwise it leaves a positive amount behind. */
  lemma LeakIff(v: Vault, id: nat, settings: Admin, p: Plan)
    requires Inv(v) && id in v.accounts && SettledBy(v.accounts[id], p, v.now) && settings.feeBps <= ChargeMath.BPS
    requires Liabilities(v, p.sub.token) <= I128_MAX
    ensures var credits := Credits(v.accounts[id], p.sub.merchant, p.amount, settings.feeBps, settings.treasury);
            SettleLeak(v, id, settings, p, p.sub.token) == 0 <==>
              || p.amount == 0
              || (Ledger.AccrualsFit(v.ledger, credits, p.sub.token, StatementLog.Interval) && p.sub.lifetimeCharged + p.amount <= I128_MAX)
    ensures SettleLeak(v, id, settings, p, p.sub.token) >= 0
  {
    hide Credits;
    SettledTerms(v, id, p);
    InvParts(v);
    var token, credits := p.sub.token, Credits(v.accounts[id], p.sub.merchant, p.amount, settings.feeBps, settings.treasury);
    CreditsSum(v.accounts[id], p.sub.merchant, p.amount, settings.feeBps, settings.treasury);
    PartsBelowLiabilities(v, token);
    if p.amount >= 1 {
      Ledger.CompleteIffAccrualsFit(v.ledger, credits, token, StatementLog.Interval);
    } else {
      ZeroSettlementPostsNothing(v, id, settings, p);
    }
  }

  /** A settlement of nothing posts nothing, whether or not a fee is due on it. */
  lemma ZeroSettlementPostsNothing(v: Vault, id: nat, settings: Admin, p: Plan)
    requires id in v.accounts && ValidSplit(v.accounts[id].split) && p.amount == 0
    ensures Ledger.Posted(v.ledger, Credits(v.accounts[id], p.sub.merchant, 0, settings.feeBps, settings.treasury), p.sub.token, StatementLog.Interval) == 0
  {
    var a := v.accounts[id];
    if settings.feeBps > 0 && settings.treasury.Some? {
      ZeroChargeWithFee(a, p.sub.merchant, settings.feeBps, settings.treasury, v.ledger, p.sub.token, StatementLog.Interval);
    } else {
      var credits := Credits(a, p.sub.merchant, 0, settings.feeBps, settings.treasury);
      CreditsSum(a, p.sub.merchant, 0, settings.feeBps, settings.treasury);
      NothingToPost(credits);
      ZeroCreditsPostNothing(v.ledger, credits, p.sub.token, StatementLog.Interval);
    }
  }

  lemma {:induction false} NothingToPost(credits: seq<(nat, int)>)
    requires Ledger.NonNegativeCredits(credits) && Ledger.SumCredits(credits) == 0
    ensures forall i :: 0 <= i < |credits| ==> credits[i].1 == 0
  {
    if credits != [] {
      var init := credits[..|credits| - 1];
      Ledger.CreditedToBounds(init, 0);
      NothingToPost(init);
      forall i | 0 <= i < |credits| ensures credits[i].1 == 0 {
        if i < |init| { assert credits[i] == init[i]; }
      }
    }
  }

  // ----- Interval charges and batches -----

  /** What one charge leaves behind when it is not rolled back. */
  function ItemLeak(v: Vault, id: nat, key: Option<nat>, admin: Option<Admin>, cache: Option<Cache>, t: nat): int {
    if v.cfg.emergencyStop || id !in v.accounts then 0
    else
      var a := v.accounts[id];
      var settings := if admin.Some? then admin.value else StoredAdmin(v.cfg);
      if PartyObstacle(v.cfg, a, LookupStatus(v, a.sub.merchant, cache).0, v.now).Some? then 0
      else
        match DecideInterval(v.cfg, settings, a, id, v.now, v.ledgerSeq, key)
        case Finish(_, _) => 0
        case Refund(_, _) => 0
        case Settle(p) => SettleLeak(v, id, settings, p, t)
  }

  lemma CarrySurplus(v: Vault, id: nat, settings: Admin, key: Option<nat>, d: Decision, t: nat)
    requires Inv(v) && id in v.accounts
    requires MovesNothing(v.accounts[id], d) && (d.Settle? ==> SettledBy(v.accounts[id], d.plan, v.now))
    ensures Surplus(Carry(v, id, settings, key, d).0, t)
         == Surplus(v, t) - (match d case Finish(_, _) => 0 case Refund(_, _) => 0 case Settle(p) => SettleLeak(v, id, settings, p, t))
  {
    hide Inv, Surplus, SettleInterval, SettleLeak;
    match d {
      case Finish(a', r) => SetAccountSurplus(v, id, a', t);
      case Refund(a', payout) =>
        SetAccountSurplus(v, id, a', t);
        KnownShape(v, id);
        if payout > 0 && Pay(SetAccount(v, id, a'), a'.sub.token, payout).Ok? {
          PaySurplus(SetAccount(v, id, a'), a'.sub.token, payout, t);
        }
      case Settle(p) => SettleIntervalSurplus(v, id, settings, p, key, t);
    }
  }

  lemma ChargeOneSurplus(v: Vault, id: nat, key: Option<nat>, admin: Option<Admin>, cache: Option<Cache>, t: nat)
    requires Inv(v)
    ensures Surplus(ChargeOne(v, id, key, admin, cache).vault, t) == Surplus(v, t) - ItemLeak(v, id, key, admin, cache, t)
  {
    hide Surplus, DecideInterval, Carry, SettleLeak, AccountInv, EachAccount, DisputesOk, EscrowsOk, CouponsOk, LedgerOk;
    if id in v.accounts {
      var settings := if admin.Some? then admin.value else StoredAdmin(v.cfg);
      var a := v.accounts[id];
      Known(v, id);
      FinishIsHarmless(v.cfg, settings, a, id, v.now, v.ledgerSeq, key);
      var d := DecideInterval(v.cfg, settings, a, id, v.now, v.ledgerSeq, key);
      if d.Settle? { SettleGuards(v.cfg, settings, a, id, v.now, v.ledgerSeq, key); }
      CarrySurplus(v, id, settings, key, d, t);
    }
  }

  /** A charge that succeeds leaves nothing behind. */
  lemma SuccessDoesNotLeak(v: Vault, id: nat, key: Option<nat>, admin: Option<Admin>, cache: Option<Cache>, t: nat)
    requires Inv(v) && ChargeOne(v, id, key, admin, cache).result.Ok?
    ensures ItemLeak(v, id, key, admin, cache, t) == 0
  {
    hide Inv, DecideInterval, StatementLog.Append, Snapshots.Write, IdemRing.PushKey, PartyObstacle, Credits;
  }

  function BatchLeak(v: Vault, ids: seq<nat>, keys: Option<seq<nat>>, admin: Option<Admin>, cache: Option<Cache>, n: nat, t: nat): int
    requires n <= |ids|
  {
    if n == 0 then 0
    else
      var b := BatchRun(v, ids, keys, admin, cache, n - 1);
      BatchLeak(v, ids, keys, admin, cache, n - 1, t)
      + (if b.trapped then 0 else ItemLeak(b.vault, ids[n - 1], KeyAt(keys, n - 1), admin, b.cache, t))
  }

  lemma {:induction false} BatchRunSurplus(v: Vault, ids: seq<nat>, keys: Option<seq<nat>>, admin: Option<Admin>, cache: Option<Cache>, n: nat, t: nat)
    requires Inv(v) && n <= |ids|
    ensures Surplus(BatchRun(v, ids, keys, admin, cache, n).vault, t) == Surplus(v, t) - BatchLeak(v, ids, keys, admin, cache, n, t)
  {
    hide Inv, Surplus, ChargeOne, ItemLeak;
    if n > 0 {
      BatchRunSurplus(v, ids, keys, admin, cache, n - 1, t);
      BatchRunInv(v, ids, keys, admin, cache, n - 1);
      var b := BatchRun(v, ids, keys, admin, cache, n - 1);
      if !b.trapped { ChargeOneSurplus(b.vault, ids[n - 1], KeyAt(keys, n - 1), admin, b.cache, t); }
    }
  }

  // ----- Usage charges -----

  lemma SettleMeteredSurplus(v: Vault, id: nat, metered: Account, p: Plan, reference: string, t: nat)
    requires Inv(v) && id in v.accounts && UsageSettledBy(v.accounts[id], metered, p, v.now)
    requires SettleMetered(v, id, metered, p, reference).Ok?
    ensures Surplus(SettleMetered(v, id, metered, p, reference).value.0, t) == Surplus(v, t)
  {
    hide Inv, Surplus, RecordUsage, Credits;
    var feeBps := RouteFeeBps(v.cfg, p.sub.merchant);
    var credits := Credits(metered, p.sub.merchant, p.amount, feeBps, v.cfg.treasury);
    KnownShape(v, id);
    CreditsSum(metered, p.sub.merchant, p.amount, feeBps, v.cfg.treasury);
    Ledger.CompletePosts(v.ledger, credits, p.sub.token, StatementLog.Usage);
    Ledger.CreditAllTotal(v.ledger, credits, p.sub.token, StatementLog.Usage, t);
    var ledger := Ledger.CreditAll(v.ledger, credits, p.sub.token, StatementLog.Usage).0;
    LedgerSurplus(v, ledger, t);
    RecordUsageFrame(metered, p, v.now, reference);
    SetAccountSurplus(v.(ledger := ledger), id, RecordUsage(metered, p, v.now, reference).value, t);
  }

  lemma MeteredChargeSurplus(v: Vault, id: nat, amount: int, reference: string, t: nat)
    requires Inv(v)
    ensures Surplus(KeptFirst(v, ChargeUsage(v, id, amount, reference)), t) == Surplus(v, t)
  {
    hide Inv, Surplus, DecideUsage, SettleMetered, AccountInv;
    if ChargeUsage(v, id, amount, reference).Ok? {
      var a := v.accounts[id];
      Known(v, id);
      UsageDecisionFacts(v.cfg, a, v.now, v.ledgerSeq, amount, reference);
      match DecideUsage(v.cfg, a, v.now, v.ledgerSeq, amount, reference) {
        case FinishUsage(a', r) => SetAccountSurplus(v, id, a', t);
        case SettleUsage(metered, p) => SettleMeteredSurplus(v, id, metered, p, reference, t);
      }
    }
  }

  lemma ChargeSurplus(v: Vault, id: nat, key: Option<nat>, t: nat)
    requires Inv(v)
    ensures Surplus(KeptFirst(v, ChargeSubscription(v, id, key)), t) == Surplus(v, t)
  {
    hide Inv, Surplus, ChargeOne, ItemLeak;
    ChargeOneSurplus(v, id, key, None, None, t);
    if ChargeOne(v, id, key, None, None).result.Ok? { SuccessDoesNotLeak(v, id, key, None, None, t); }
  }

  // ----- Subscriptions and coupons -----

  lemma CreateSurplus(
    v: Vault, subscriber: nat, merchant: nat, token: nat, amount: int, interval: nat, usageEnabled: bool,
    cap: Option<int>, expiresAt: Option<nat>, expiresAtLedger: Option<nat>, split: Option<seq<(nat, nat)>>,
    proration: bool, limits: Option<UsageMeter.Limits>, t: nat)
    requires Inv(v)
    ensures Surplus(KeptFirst(v, CreateSubscription(v, subscriber, merchant, token, amount, interval, usageEnabled, cap, expiresAt, expiresAtLedger, split, proration, limits)), t) == Surplus(v, t)
  {
    hide Surplus, EachAccount, EscrowsOk, CouponsOk, LedgerOk, CheckSplit;
    var r := CreateSubscription(v, subscriber, merchant, token, amount, interval, usageEnabled, cap, expiresAt, expiresAtLedger, split, proration, limits);
    if r.Ok? {
      assert v.nextSub !in v.accounts;
      var grown := SetAccount(v, v.nextSub, r.value.0.accounts[v.nextSub]);
      NewAccountSurplus(v, v.nextSub, r.value.0.accounts[v.nextSub], t);
      FrameSurplus(grown, r.value.0, t);
    }
  }

  lemma DepositSurplus(v: Vault, id: nat, amount: int, t: nat)
    requires Inv(v)
    ensures Surplus(Kept(v, Deposit(v, id, amount)), t) == Surplus(v, t)
  {
    hide Inv, Surplus;
    if Deposit(v, id, amount).Ok? {
      EffectiveHarmless(v, id);
      var s := EffectiveSub(v, id);
      var a := v.accounts[id].(sub := s.(prepaid := s.prepaid + amount), failures := 0);
      SetAccountSurplus(v, id, a, t);
      ReceiveSurplus(SetAccount(v, id, a), s.token, amount, t);
    }
  }

  lemma CancelSurplus(v: Vault, caller: nat, id: nat, t: nat)
    requires Inv(v)
    ensures Surplus(Kept(v, Cancel(v, caller, id)), t) == Surplus(v, t)
  {
    hide Inv, Surplus;
    if Cancel(v, caller, id).Ok? {
      KnownShape(v, id);
      EffectiveHarmless(v, id);
      var s := EffectiveSub(v, id);
      var v1 := SetAccount(v, id, v.accounts[id].(sub := s.(status := Cancelled, prepaid := 0)));
      var v2 := v1.(merchants := v1.merchants.(subs := Unlist(v1.merchants.subs, s.merchant, id)));
      SetAccountSurplus(v, id, v1.accounts[id], t);
      FrameSurplus(v1, v2, t);
      if s.prepaid > 0 { PaySurplus(v2, s.token, s.prepaid, t); }
    }
  }

  lemma WithdrawSubscriberSurplus(v: Vault, caller: nat, id: nat, t: nat)
    requires Inv(v)
    ensures Surplus(Kept(v, WithdrawSubscriber(v, caller, id)), t) == Surplus(v, t)
  {
    hide Inv, Surplus;
    if WithdrawSubscriber(v, caller, id).Ok? {
      EffectiveHarmless(v, id);
      var s := EffectiveSub(v, id);
      if s.prepaid > 0 {
        var a := v.accounts[id].(sub := s.(prepaid := 0));
        SetAccountSurplus(v, id, a, t);
        PaySurplus(SetAccount(v, id, a), s.token, s.prepaid, t);
      } else {
        DropEscrowSurplus(v, id, t);
        PaySurplus(v.(escrows := v.escrows - {id}), v.escrows[id].token, v.escrows[id].amount, t);
      }
    }
  }

  /** Calls that replace one account without touching its balance. */
  lemma AccountOnlySurplus(v: Vault, caller: nat, id: nat, payees: Option<seq<(nat, nat)>>, cancelAt: nat, next: Status, keepRecent: nat, t: nat)
    ensures Surplus(Kept(v, UpdateSplit(v, caller, id, payees)), t) == Surplus(v, t)
    ensures Surplus(Kept(v, ScheduleCancel(v, caller, id, cancelAt)), t) == Surplus(v, t)
    ensures Surplus(Kept(v, ChangeStatus(v, id, next)), t) == Surplus(v, t)
    ensures Surplus(KeptFirst(v, CompactStatements(v, id, keepRecent)), t) == Surplus(v, t)
  {
    hide Surplus, CheckSplit, StatementLog.Compact;
    if id in v.accounts {
      EffectiveHarmless(v, id);
      SetAccountSurplus(v, id, v.accounts[id].(split := payees), t);
      SetAccountSurplus(v, id, v.accounts[id].(sub := EffectiveSub(v, id).(cancelAt := Some(cancelAt))), t);
      SetAccountSurplus(v, id, v.accounts[id].(sub := EffectiveSub(v, id).(status := next)), t);
      var r := StatementLog.Compact(v.accounts[id].log, keepRecent);
      if r.Ok? { SetAccountSurplus(v, id, v.accounts[id].(log := r.value.0), t); }
    }
  }

  lemma SwitchesSurplus(v: Vault, caller: nat, id: nat, enabled: bool, t: nat)
    ensures Surplus(Kept(v, UnscheduleCancel(v, caller, id)), t) == Surplus(v, t)
    ensures Surplus(Kept(v, SetAutoRenew(v, caller, id, enabled)), t) == Surplus(v, t)
  {
    hide Surplus, InRenewalWindow, IsExpired;
    if id in v.accounts {
      EffectiveHarmless(v, id);
      SetAccountSurplus(v, id, v.accounts[id].(sub := EffectiveSub(v, id).(cancelAt := None)), t);
      SetAccountSurplus(v, id, Kept(v, SetAutoRenew(v, caller, id, enabled)).accounts[id], t);
      if SetAutoRenew(v, caller, id, enabled).Err? { assert v.accounts[id := v.accounts[id]] == v.accounts; }
    }
  }

  lemma CouponSurplus(v: Vault, caller: nat, id: nat, code: nat, c: Coupon, t: nat)
    ensures Surplus(Kept(v, CreateCoupon(v, code, c)), t) == Surplus(v, t)
    ensures Surplus(Kept(v, RevokeCoupon(v, code)), t) == Surplus(v, t)
    ensures Surplus(Kept(v, ApplyCoupon(v, caller, id, code)), t) == Surplus(v, t)
  {
    hide Surplus;
    FrameSurplus(v, Kept(v, CreateCoupon(v, code, c)), t);
    FrameSurplus(v, Kept(v, RevokeCoupon(v, code)), t);
    if ApplyCoupon(v, caller, id, code).Ok? {
      var counted := v.(redemptions := Kept(v, ApplyCoupon(v, caller, id, code)).redemptions);
      FrameSurplus(v, counted, t);
      SetAccountSurplus(counted, id, v.accounts[id].(coupon := Some(code)), t);
    }
  }

  // ----- Disputes -----

  lemma OpenDisputeSurplus(v: Vault, caller: nat, id: nat, amount: int, t: nat)
    requires Inv(v)
    ensures Surplus(KeptFirst(v, OpenDispute(v, caller, id, amount)), t) == Surplus(v, t)
  {
    hide Surplus, AccountsOk, EscrowsOk, CouponsOk, LedgerOk, OpenRecord;
    if OpenDispute(v, caller, id, amount).Ok? {
      var s := v.accounts[id].sub;
      var x := Ledger.BalanceOf(v.ledger, s.merchant, s.token) - amount;
      Ledger.SetBalanceTotal(v.ledger, s.merchant, s.token, x, t);
      var l := Ledger.SetBalance(v.ledger, s.merchant, s.token, x);
      LedgerSurplus(v, l, t);
      OpenRecordSurplus(v.(ledger := l), Dispute(id, caller, s.merchant, amount, v.now, Open, None), t);
    }
  }

  lemma LodgeSurplus(v: Vault, caller: nat, id: nat, t: nat)
    requires Inv(v)
    ensures Surplus(KeptFirst(v, LodgeEscrowDispute(v, caller, id)), t) == Surplus(v, t)
  {
    hide Surplus, AccountsOk, CouponsOk, LedgerOk, OpenRecord;
    if LodgeEscrowDispute(v, caller, id).Ok? {
      var e := v.escrows[id];
      DropEscrowSurplus(v, id, t);
      OpenRecordSurplus(v.(escrows := v.escrows - {id}), Dispute(id, e.subscriber, e.merchant, e.amount, v.now, Open, None), t);
    }
  }

  lemma ClaimSurplus(v: Vault, caller: nat, id: nat, t: nat)
    ensures Surplus(Kept(v, ClaimEscrow(v, caller, id)), t) == Surplus(v, t)
  {
    hide Surplus;
    if ClaimEscrow(v, caller, id).Ok? {
      DropEscrowSurplus(v, id, t);
      PaySurplus(v.(escrows := v.escrows - {id}), v.escrows[id].token, v.escrows[id].amount, t);
    }
  }

  lemma RespondSurplus(v: Vault, disputeId: nat, t: nat)
    ensures Surplus(Kept(v, RespondDispute(v, disputeId)), t) == Surplus(v, t)
  {
    hide Surplus;
    if RespondDispute(v, disputeId).Ok? {
      RestatusSurplus(v, disputeId, v.disputes.records[disputeId].(status := Responded, respondedAt := Some(v.now)), t);
    }
  }

  /** The released escrow is paid out in full, to a merchant's balance or in tokens. */
  lemma DisburseSurplus(v: Vault, disputeId: nat, outcome: DisputeStatus, remaining: int, t: nat)
    requires disputeId in v.disputes.escrow && disputeId in v.disputes.records && v.disputes.records[disputeId].subscription in v.accounts
    requires remaining == v.disputes.escrow[disputeId].original - v.disputes.escrow[disputeId].disbursed
    ensures Surplus(Kept(v, Disburse(v, disputeId, v.disputes.records[disputeId], outcome, remaining)), t) == Surplus(v, t)
  {
    hide Surplus;
    var d := v.disputes.records[disputeId];
    var token := v.accounts[d.subscription].sub.token;
    var active := v.disputes.active - {d.subscription};
    CloseRecordSurplus(v, disputeId, d.(status := outcome), active, t);
    var closed := v.(disputes := Disputes(v.disputes.records[disputeId := d.(status := outcome)], v.disputes.escrow - {disputeId}, active, v.disputes.nextId));
    if Disburse(v, disputeId, d, outcome, remaining).Ok? {
      if outcome == ResolvedToMerchant {
        var x := Ledger.BalanceOf(v.ledger, d.merchant, token) + remaining;
        Ledger.SetBalanceTotal(v.ledger, d.merchant, token, x, t);
        LedgerSurplus(closed, Ledger.SetBalance(v.ledger, d.merchant, token, x), t);
      } else {
        PaySurplus(closed, token, remaining, t);
      }
    }
  }

  lemma ResolveSurplus(v: Vault, disputeId: nat, toSubscriber: bool, t: nat)
    ensures Surplus(Kept(v, ResolveDispute(v, disputeId, toSubscriber)), t) == Surplus(v, t)
  {
    hide Surplus, Disburse;
    if ResolveDispute(v, disputeId, toSubscriber).Ok? {
      var d := v.disputes.records[disputeId];
      var outcome := Resolution(d, SaturatingSub(v.now, d.openedAt) >= v.cfg.disputeWindow, toSubscriber);
      var e := v.disputes.escrow[disputeId];
      DisburseSurplus(v, disputeId, outcome.value, e.original - e.disbursed, t);
    }
  }

  // ----- Merchants -----

  /** Lowering a balance by what is paid out conserves. */
  lemma PayoutSurplus(v: Vault, merchant: nat, token: nat, amount: int, e: Ledger.Earnings, t: nat)
    ensures var x := Ledger.BalanceOf(v.ledger, merchant, token) - amount;
            var r := Pay(v.(ledger := SetEarnings(Ledger.SetBalance(v.ledger, merchant, token, x), merchant, token, e)), token, amount);
            r.Ok? ==> Surplus(r.value, t) == Surplus(v, t)
  {
    hide Surplus;
    var x := Ledger.BalanceOf(v.ledger, merchant, token) - amount;
    var l1 := Ledger.SetBalance(v.ledger, merchant, token, x);
    var l2 := SetEarnings(l1, merchant, token, e);
    Ledger.SetBalanceTotal(v.ledger, merchant, token, x, t);
    Ledger.SameBalances(l1, l2, t);
    LedgerSurplus(v, l2, t);
    if Pay(v.(ledger := l2), token, amount).Ok? { PaySurplus(v.(ledger := l2), token, amount, t); }
  }

  lemma MerchantPayoutSurplus(v: Vault, merchant: nat, token: nat, amount: int, t: nat)
    ensures Surplus(Kept(v, WithdrawMerchant(v, merchant, token, amount)), t) == Surplus(v, t)
    ensures Surplus(Kept(v, MerchantRefund(v, merchant, token, amount)), t) == Surplus(v, t)
  {
    hide Surplus, Pay;
    var e := Ledger.EarningsOf(v.ledger, merchant, token);
    PayoutSurplus(v, merchant, token, amount, e.(refunds := e.refunds + amount, withdrawals := e.withdrawals + amount), t);
    PayoutSurplus(v, merchant, token, amount, e.(refunds := e.refunds + amount), t);
  }

  lemma FlushTokenSurplus(v: Vault, merchant: nat, token: nat, minPayout: int, t: nat)
    ensures Surplus(KeptFirst(v, FlushToken(v, merchant, token, minPayout)), t) == Surplus(v, t)
  {
    hide Surplus, Pay;
    var balance := Ledger.BalanceOf(v.ledger, merchant, token);
    var e := Ledger.EarningsOf(v.ledger, merchant, token);
    PayoutSurplus(v, merchant, token, balance, e.(withdrawals := e.withdrawals + balance), t);
  }

  lemma {:induction false} FlushTokensSurplus(v: Vault, merchant: nat, tokens: seq<nat>, minPayout: int, n: nat, t: nat)
    requires n <= |tokens|
    ensures Surplus(KeptFirst(v, FlushTokens(v, merchant, tokens, minPayout, n)), t) == Surplus(v, t)
  {
    hide Surplus, FlushToken;
    if n > 0 && FlushTokens(v, merchant, tokens, minPayout, n).Ok? {
      FlushTokensSurplus(v, merchant, tokens, minPayout, n - 1, t);
      FlushTokenSurplus(FlushTokens(v, merchant, tokens, minPayout, n - 1).value.0, merchant, tokens[n - 1], minPayout, t);
    }
  }

  /** A flush pays each listed balance that reaches the minimum in full, once, and leaves every
      other balance alone. */
  lemma {:induction false} FlushPaysListed(v: Vault, merchant: nat, tokens: seq<nat>, minPayout: int, n: nat, who: nat, t: nat)
    requires n <= |tokens| && FlushTokens(v, merchant, tokens, minPayout, n).Ok?
    ensures var v', b := FlushTokens(v, merchant, tokens, minPayout, n).value.0, Ledger.BalanceOf(v.ledger, merchant, t);
            var paid := t in tokens[..n] && b >= minPayout && b > 0;
            && Ledger.BalanceOf(v'.ledger, who, t) == (if who == merchant && paid then 0 else Ledger.BalanceOf(v.ledger, who, t))
            && Held(v', t) == Held(v, t) - (if paid then b else 0)
  {
    if n > 0 {
      FlushPaysListed(v, merchant, tokens, minPayout, n - 1, who, t);
      FlushPaysListed(v, merchant, tokens, minPayout, n - 1, merchant, t);
      FlushTokenPays(FlushTokens(v, merchant, tokens, minPayout, n - 1).value.0, merchant, tokens[n - 1], minPayout, who, t);
      FlushTokenPays(FlushTokens(v, merchant, tokens, minPayout, n - 1).value.0, merchant, tokens[n - 1], minPayout, merchant, t);
      assert tokens[..n] == tokens[..n - 1] + [tokens[n - 1]];
    }
  }

  lemma FlushTokenPays(v: Vault, merchant: nat, token: nat, minPayout: int, who: nat, t: nat)
    requires FlushToken(v, merchant, token, minPayout).Ok?
    ensures var v', b := FlushToken(v, merchant, token, minPayout).value.0, Ledger.BalanceOf(v.ledger, merchant, t);
            var paid := t == token && b >= minPayout && b > 0;
            && Ledger.BalanceOf(v'.ledger, who, t) == (if who == merchant && paid then 0 else Ledger.BalanceOf(v.ledger, who, t))
            && Held(v', t) == Held(v, t) - (if paid then b else 0)
  {}

  lemma FlushSurplus(v: Vault, merchant: nat, t: nat)
    ensures Surplus(KeptFirst(v, FlushPayouts(v, merchant)), t) == Surplus(v, t)
  {
    hide Surplus, FlushTokens;
    var tokens := Ledger.TokensOf(v.ledger, merchant);
    FlushTokensSurplus(v, merchant, tokens, ScheduleOf(v, merchant).minPayout, |tokens|, t);
    if FlushPayouts(v, merchant).Ok? && KeptFirst(v, FlushPayouts(v, merchant)) != v {
      FrameSurplus(KeptFirst(v, FlushTokens(v, merchant, tokens, ScheduleOf(v, merchant).minPayout, |tokens|)), KeptFirst(v, FlushPayouts(v, merchant)), t);
    }
  }

  // ----- Rotation -----

  lemma RemoveBalanceTotal(l: Ledger.Ledger, who: nat, token: nat, t: nat)
    ensures Ledger.BalanceTotal(l.(balance := l.balance - {(who, token)}), t)
         == Ledger.BalanceTotal(l, t) - (if t == token then Ledger.BalanceOf(l, who, token) else 0)
  {
    var l' := l.(balance := l.balance - {(who, token)});
    if t == token {
      assert Ledger.BalanceMap(l', t) == Ledger.BalanceMap(l, t) - {(who, token)};
      Sums.SumRemove(Ledger.BalanceMap(l, t), (who, token));
    } else {
      assert Ledger.BalanceMap(l', t) == Ledger.BalanceMap(l, t);
    }
  }

  /** Moving a token to another address keeps its total; moving it to itself deletes it. */
  lemma MoveTokenTotal(l: Ledger.Ledger, oldAddr: nat, newAddr: nat, token: nat, t: nat)
    requires MoveToken(l, oldAddr, newAddr, token).Ok?
    ensures var l' := MoveToken(l, oldAddr, newAddr, token).value;
            && Ledger.BalanceTotal(l', t) == Ledger.BalanceTotal(l, t) - (if oldAddr == newAddr && t == token then Ledger.BalanceOf(l, oldAddr, t) else 0)
            && Ledger.BalanceOf(l', oldAddr, t) == (if t == token then 0 else Ledger.BalanceOf(l, oldAddr, t))
  {
    hide Ledger.BalanceTotal;
    var balance := Ledger.BalanceOf(l, oldAddr, token);
    var l1 := if balance != 0 then Ledger.SetBalance(l, newAddr, token, Ledger.BalanceOf(l, newAddr, token) + balance) else l;
    Ledger.SetBalanceTotal(l, newAddr, token, Ledger.BalanceOf(l, newAddr, token) + balance, t);
    RemoveBalanceTotal(l1, oldAddr, token, t);
    Ledger.SameBalances(l1.(balance := l1.balance - {(oldAddr, token)}), MoveToken(l, oldAddr, newAddr, token).value, t);
  }

  lemma {:induction false} MoveTokensTotal(l: Ledger.Ledger, oldAddr: nat, newAddr: nat, tokens: seq<nat>, n: nat, t: nat)
    requires n <= |tokens| && MoveTokens(l, oldAddr, newAddr, tokens, n).Ok?
    ensures var l' := MoveTokens(l, oldAddr, newAddr, tokens, n).value;
            && Ledger.BalanceTotal(l', t) == Ledger.BalanceTotal(l, t) - (if oldAddr == newAddr && t in tokens[..n] then Ledger.BalanceOf(l, oldAddr, t) else 0)
            && Ledger.BalanceOf(l', oldAddr, t) == (if t in tokens[..n] then 0 else Ledger.BalanceOf(l, oldAddr, t))
  {
    hide Ledger.BalanceTotal, Ledger.BalanceOf, MoveToken;
    if n > 0 {
      MoveTokensTotal(l, oldAddr, newAddr, tokens, n - 1, t);
      assert tokens[..n] == tokens[..n - 1] + [tokens[n - 1]];
      MoveTokenTotal(MoveTokens(l, oldAddr, newAddr, tokens, n - 1).value, oldAddr, newAddr, tokens[n - 1], t);
    }
  }

  lemma MoveTokenEffect(l: Ledger.Ledger, oldAddr: nat, newAddr: nat, token: nat, who: nat, t: nat)
    requires oldAddr != newAddr && MoveToken(l, oldAddr, newAddr, token).Ok?
    ensures var l' := MoveToken(l, oldAddr, newAddr, token).value;
            && Ledger.BalanceOf(l', who, t) == (if t != token || who !in {oldAddr, newAddr} then Ledger.BalanceOf(l, who, t)
                                                else if who == oldAddr then 0
                                                else Ledger.BalanceOf(l, newAddr, t) + Ledger.BalanceOf(l, oldAddr, t))
            && Ledger.EarningsOf(l', who, t) == (if t == token && who == newAddr && (oldAddr, t) in l.earnings then l.earnings[(oldAddr, t)]
                                                 else if t == token && who == oldAddr then Ledger.NO_EARNINGS
                                                 else Ledger.EarningsOf(l, who, t))
            && ((oldAddr, t) in l'.earnings <==> (oldAddr, t) in l.earnings && t != token)
  {}

  /** Rotation hands every listed balance over to the new address, on top of its own; earnings
      records are handed over too, but replace the new address's own. Nobody else is affected. */
  lemma {:induction false} MoveTokensEffect(l: Ledger.Ledger, oldAddr: nat, newAddr: nat, tokens: seq<nat>, n: nat, who: nat, t: nat)
    requires n <= |tokens| && oldAddr != newAddr && MoveTokens(l, oldAddr, newAddr, tokens, n).Ok?
    ensures var l', listed := MoveTokens(l, oldAddr, newAddr, tokens, n).value, t in tokens[..n];
            && Ledger.BalanceOf(l', who, t) == (if !listed || who !in {oldAddr, newAddr} then Ledger.BalanceOf(l, who, t)
                                                else if who == oldAddr then 0
                                                else Ledger.BalanceOf(l, newAddr, t) + Ledger.BalanceOf(l, oldAddr, t))
            && Ledger.EarningsOf(l', who, t) == (if listed && who == newAddr && (oldAddr, t) in l.earnings then l.earnings[(oldAddr, t)]
                                                 else if listed && who == oldAddr then Ledger.NO_EARNINGS
                                                 else Ledger.EarningsOf(l, who, t))
            && ((oldAddr, t) in l'.earnings <==> (oldAddr, t) in l.earnings && !listed)
  {
    hide MoveToken;
    if n > 0 {
      var l1 := MoveTokens(l, oldAddr, newAddr, tokens, n - 1).value;
      MoveTokensEffect(l, oldAddr, newAddr, tokens, n - 1, who, t);
      MoveTokensEffect(l, oldAddr, newAddr, tokens, n - 1, oldAddr, t);
      MoveTokensEffect(l, oldAddr, newAddr, tokens, n - 1, newAddr, t);
      MoveTokenEffect(l1, oldAddr, newAddr, tokens[n - 1], who, t);
      assert tokens[..n] == tokens[..n - 1] + [tokens[n - 1]];
    }
  }

  /** Rotation onto another address conserves; rotation onto itself wipes the listed balances. */
  lemma RotateSurplus(v: Vault, oldAddr: nat, newAddr: nat, t: nat)
    requires RotateMerchant(v, oldAddr, newAddr).Ok?
    ensures Surplus(RotateMerchant(v, oldAddr, newAddr).value, t)
         == Surplus(v, t) + (if oldAddr == newAddr && t in Ledger.TokensOf(v.ledger, oldAddr) then Ledger.BalanceOf(v.ledger, oldAddr, t) else 0)
  {
    hide Surplus, MoveTokens, Readdress;
    var tokens := Ledger.TokensOf(v.ledger, oldAddr);
    var v' := RotateMerchant(v, oldAddr, newAddr).value;
    MoveTokensTotal(v.ledger, oldAddr, newAddr, tokens, |tokens|, t);
    assert tokens[..|tokens|] == tokens;
    var moved := MoveTokens(v.ledger, oldAddr, newAddr, tokens, |tokens|).value;
    Ledger.SameBalances(moved, v'.ledger, t);
    LedgerSurplus(v, v'.ledger, t);
    var ids := if oldAddr in v.merchants.subs then v.merchants.subs[oldAddr] else [];
    ReaddressSurplus(v.(ledger := v'.ledger), ids, oldAddr, newAddr, t);
    FrameSurplus(v.(ledger := v'.ledger, accounts := v'.accounts), v', t);
  }

  // ----- Every call, every run -----

  /** How a call moves the surplus. Only a batch can lower it and only a rotation onto the same
      address can raise it. */
  function Gain(v: Vault, op: Op, t: nat): int {
    match op
    case Batch(ids, keys) =>
      if ids != [] && BatchCharge(v, ids, keys).Ok? then -BatchLeak(v, ids, keys, ReadAdmin(v.cfg), Some(map[]), |ids|, t) else 0
    case Rotate(oldAddr, newAddr) =>
      if oldAddr == newAddr && t in Ledger.TokensOf(v.ledger, oldAddr) && RotateMerchant(v, oldAddr, newAddr).Ok? then Ledger.BalanceOf(v.ledger, oldAddr, t) else 0
    case _ => 0
  }

  lemma BatchSurplus(v: Vault, ids: seq<nat>, keys: Option<seq<nat>>, t: nat)
    requires Inv(v)
    ensures Surplus(KeptFirst(v, BatchCharge(v, ids, keys)), t) == Surplus(v, t) + Gain(v, Batch(ids, keys), t)
  {
    hide Inv, Surplus, BatchRun, BatchLeak;
    BatchRunSurplus(v, ids, keys, ReadAdmin(v.cfg), Some(map[]), |ids|, t);
  }

  lemma RotationSurplus(v: Vault, oldAddr: nat, newAddr: nat, t: nat)
    ensures Surplus(Kept(v, RotateMerchant(v, oldAddr, newAddr)), t) == Surplus(v, t) + Gain(v, Rotate(oldAddr, newAddr), t)
  {
    hide Surplus, RotateMerchant;
    if RotateMerchant(v, oldAddr, newAddr).Ok? { RotateSurplus(v, oldAddr, newAddr, t); }
  }

  lemma MerchantConfigSurplus(v: Vault, merchant: nat, feeBips: int, operations: int, paused: bool, t: nat)
    ensures Surplus(Kept(v, InitializeMerchant(v, merchant, feeBips, operations)), t) == Surplus(v, t)
    ensures Surplus(Kept(v, SetMerchantConfig(v, merchant, feeBips, operations, paused)), t) == Surplus(v, t)
  {
    hide Surplus;
    FrameSurplus(v, Kept(v, InitializeMerchant(v, merchant, feeBips, operations)), t);
    FrameSurplus(v, Kept(v, SetMerchantConfig(v, merchant, feeBips, operations, paused)), t);
  }

  lemma SettingsSurplus(v: Vault, seconds: nat, ledgers: nat, cfg: Config, merchant: nat, cadence: nat, minPayout: int, t: nat)
    ensures Surplus(Advance(v, seconds, ledgers), t) == Surplus(v, t)
    ensures Surplus(Configure(v, cfg), t) == Surplus(v, t)
    ensures Surplus(Kept(v, SetSchedule(v, merchant, cadence, minPayout)), t) == Surplus(v, t)
  {
    hide Surplus, FeesAllowed;
    FrameSurplus(v, Advance(v, seconds, ledgers), t);
    FrameSurplus(v, Configure(v, cfg), t);
    FrameSurplus(v, Kept(v, SetSchedule(v, merchant, cadence, minPayout)), t);
  }

  lemma ChargeCallSurplus(v: Vault, op: Op, t: nat)
    requires Inv(v) && IsCharge(op)
    ensures Surplus(ChargeStep(v, op), t) == Surplus(v, t) + Gain(v, op, t)
  {
    hide Inv, Surplus, Kept, KeptFirst, BatchLeak, BatchCharge, ChargeSubscription, ChargeUsage;
    match op {
      case Charge(id, key) => ChargeSurplus(v, id, key, t);
      case Batch(ids, keys) => BatchSurplus(v, ids, keys, t);
      case MeteredCharge(id, amount, reference) => MeteredChargeSurplus(v, id, amount, reference, t);
    }
  }

  lemma SettingCallSurplus(v: Vault, op: Op, t: nat)
    requires IsSetting(op)
    ensures Surplus(SettingStep(v, op), t) == Surplus(v, t)
  {
    hide Surplus, Advance, Configure;
    match op {
      case Tick(seconds, ledgers) => SettingsSurplus(v, seconds, ledgers, v.cfg, 0, 0, 0, t);
      case Reconfigure(cfg) => SettingsSurplus(v, 0, 0, cfg, 0, 0, 0, t);
    }
  }

  lemma DisputeCallSurplus(v: Vault, op: Op, t: nat)
    requires Inv(v) && IsDisputeCall(op)
    ensures Surplus(DisputeStep(v, op), t) == Surplus(v, t)
  {
    hide Inv, Surplus, Kept, KeptFirst, OpenDispute, RespondDispute, ResolveDispute, LodgeEscrowDispute;
    match op {
      case RaiseDispute(caller, id, amount) => OpenDisputeSurplus(v, caller, id, amount, t);
      case Respond(d) => RespondSurplus(v, d, t);
      case Resolve(d, toSubscriber) => ResolveSurplus(v, d, toSubscriber, t);
      case Lodge(caller, id) => LodgeSurplus(v, caller, id, t);
    }
  }

  lemma MerchantCallSurplus(v: Vault, op: Op, t: nat)
    requires IsMerchantCall(op)
    ensures Surplus(MerchantStep(v, op), t) == Surplus(v, t) + Gain(v, op, t)
  {
    hide Surplus, Kept, KeptFirst, InitializeMerchant, SetMerchantConfig, SetSchedule, WithdrawMerchant, MerchantRefund, FlushPayouts, RotateMerchant;
    match op {
      case NewMerchant(m, feeBips, operations) => MerchantConfigSurplus(v, m, feeBips, operations, false, t);
      case MerchantSettings(m, feeBips, operations, paused) => MerchantConfigSurplus(v, m, feeBips, operations, paused, t);
      case PayoutSchedule(m, cadence, min) => SettingsSurplus(v, 0, 0, v.cfg, m, cadence, min, t);
      case MerchantWithdrawal(m, token, amount) => MerchantPayoutSurplus(v, m, token, amount, t);
      case RefundByMerchant(m, token, amount) => MerchantPayoutSurplus(v, m, token, amount, t);
      case Flush(m) => FlushSurplus(v, m, t);
      case Rotate(oldAddr, newAddr) => RotationSurplus(v, oldAddr, newAddr, t);
    }
  }

  lemma CouponCallSurplus(v: Vault, op: Op, t: nat)
    requires IsCouponCall(op)
    ensures Surplus(CouponStep(v, op), t) == Surplus(v, t)
  {
    hide Surplus, Kept, CreateCoupon, RevokeCoupon, ApplyCoupon;
    match op {
      case NewCoupon(code, c) => CouponSurplus(v, 0, 0, code, c, t);
      case EndCoupon(code) => CouponSurplus(v, 0, 0, code, Coupon(0, 0, 0, 0, 0, false), t);
      case BindCoupon(caller, id, code) => CouponSurplus(v, caller, id, code, Coupon(0, 0, 0, 0, 0, false), t);
    }
  }

  lemma SubscriptionCallSurplus(v: Vault, op: Op, t: nat)
    requires Inv(v) && IsSubscriptionCall(op)
    ensures Surplus(SubscriptionStep(v, op), t) == Surplus(v, t)
  {
    hide Inv, Surplus, Kept, KeptFirst, CreateSubscription, UpdateSplit, Deposit, CompactStatements, ScheduleCancel, UnscheduleCancel, SetAutoRenew, Cancel, ChangeStatus, WithdrawSubscriber, ClaimEscrow;
    match op {
      case Create(subscriber, merchant, token, amount, interval, usage, cap, exp, expLedger, split, proration, limits) =>
        CreateSurplus(v, subscriber, merchant, token, amount, interval, usage, cap, exp, expLedger, split, proration, limits, t);
      case SetSplit(caller, id, payees) => AccountOnlySurplus(v, caller, id, payees, 0, Paused, 0, t);
      case DoDeposit(id, amount) => DepositSurplus(v, id, amount, t);
      case Compaction(id, keepRecent) => AccountOnlySurplus(v, 0, id, None, 0, Paused, keepRecent, t);
      case ScheduleCancellation(caller, id, at) => AccountOnlySurplus(v, caller, id, None, at, Paused, 0, t);
      case UnscheduleCancellation(caller, id) => SwitchesSurplus(v, caller, id, false, t);
      case ToggleRenewal(caller, id, enabled) => SwitchesSurplus(v, caller, id, enabled, t);
      case CancelNow(caller, id) => CancelSurplus(v, caller, id, t);
      case SetStatus(id, next) => AccountOnlySurplus(v, 0, id, None, 0, next, 0, t);
      case SubscriberWithdrawal(caller, id) => WithdrawSubscriberSurplus(v, caller, id, t);
      case Claim(caller, id) => ClaimSurplus(v, caller, id, t);
    }
  }

  lemma NoOtherGain(v: Vault, op: Op, t: nat)
    requires !op.Batch? && !op.Rotate?
    ensures Gain(v, op, t) == 0
  {}

  /** Every call moves the surplus by exactly its gain, which is zero for all but those two. */
  lemma StepSurplus(v: Vault, op: Op, t: nat)
    requires Inv(v)
    ensures Surplus(Step(v, op), t) == Surplus(v, t) + Gain(v, op, t)
  {
    hide Inv, Surplus, Gain, ChargeStep, SettingStep, DisputeStep, MerchantStep, CouponStep, SubscriptionStep;
    if !op.Batch? && !op.Rotate? { NoOtherGain(v, op, t); }
    if IsCharge(op) { ChargeCallSurplus(v, op, t); }
    else if IsSetting(op) { SettingCallSurplus(v, op, t); }
    else if IsDisputeCall(op) { DisputeCallSurplus(v, op, t); }
    else if IsMerchantCall(op) { MerchantCallSurplus(v, op, t); }
    else if IsCouponCall(op) { CouponCallSurplus(v, op, t); }
    else { SubscriptionCallSurplus(v, op, t); }
  }
}
