/** The invariant of the whole contract state and its preservation by every call. */
module VaultInvariant {
  import opened Base
  import opened StateMachine
  import opened Accounts
  import opened AccountLaws
  import opened Vault
  import opened VaultTotals
  import ChargeMath
  import StatementLog
  import Snapshots
  import IdemRing
  import UsageMeter
  import Ledger
  import Sums

  ghost predicate AccountsOk(accounts: map<nat, Account>, now: nat, nextSub: nat) {
    && now <= U64_MAX
    && nextSub <= U32_MAX
    && |accounts| == nextSub
    && (forall id :: id in accounts ==> id < nextSub)
    && EachAccount(accounts, now)
  }

  ghost predicate EachAccount(accounts: map<nat, Account>, now: nat) {
    forall id {:trigger AccountInv(accounts[id], now)} :: id in accounts ==> AccountInv(accounts[id], now)
  }

  /** A dispute has an escrow of exactly its positive amount while it is unresolved and none
      afterwards; the index names the unresolved dispute of each subscription, of which there
      is at most one. */
  ghost predicate DisputesOk(ds: Disputes, accounts: map<nat, Account>) {
    && Linked(ds, accounts)
    && (forall d :: d in ds.records ==> d < ds.nextId && ds.records[d].amount > 0)
    && (forall d :: d in ds.escrow <==> d in ds.records && !Resolved(ds.records[d].status))
    && (forall d :: d in ds.escrow ==> ds.escrow[d] == Escrow(ds.records[d].amount, 0))
    && (forall s :: s in ds.active ==> ds.active[s] in ds.escrow && ds.records[ds.active[s]].subscription == s)
    && (forall d :: d in ds.escrow ==> ds.records[d].subscription in ds.active && ds.active[ds.records[d].subscription] == d)
  }

  /** Cancellation escrows stem from existing subscriptions and are held in their token. */
  ghost predicate EscrowsOk(escrows: map<nat, CancelEscrow>, accounts: map<nat, Account>) {
    forall id :: id in escrows ==> escrows[id].amount > 0 && id in accounts && escrows[id].token == accounts[id].sub.token
  }

  ghost predicate LedgerOk(l: Ledger.Ledger) { Ledger.NonNegative(l) && Ledger.EarningsInRange(l) }

  ghost function BoundTo(accounts: map<nat, Account>, code: nat): map<nat, int> {
    map id | id in accounts && accounts[id].coupon == Some(code) :: 1
  }

  /** The redemption counter is the number of subscriptions bound to the coupon, and never
      exceeds the coupon's limit. */
  ghost predicate CouponsOk(accounts: map<nat, Account>, redemptions: map<nat, nat>, coupons: map<nat, Coupon>) {
    forall code :: CouponOk(accounts, redemptions, coupons, code)
  }

  ghost predicate CouponOk(accounts: map<nat, Account>, redemptions: map<nat, nat>, coupons: map<nat, Coupon>, code: nat) {
    && Sums.Sum(BoundTo(accounts, code)) == CountOf(redemptions, code)
    && (code in coupons && coupons[code].maxRedemptions > 0 ==> CountOf(redemptions, code) <= coupons[code].maxRedemptions)
    && (code !in coupons ==> CountOf(redemptions, code) == 0)
  }

  ghost predicate Inv(v: Vault) {
    && ConfigOk(v.cfg)
    && AccountsOk(v.accounts, v.now, v.nextSub)
    && LedgerOk(v.ledger)
    && DisputesOk(v.disputes, v.accounts)
    && EscrowsOk(v.escrows, v.accounts)
    && CouponsOk(v.accounts, v.redemptions, v.cfg.coupons)
  }

  lemma Known(v: Vault, id: nat)
    requires Inv(v) && id in v.accounts
    ensures AccountInv(v.accounts[id], v.now)
  {
    hide AccountInv;
    assert AccountInv(v.accounts[id], v.now);
  }

  lemma KnownShape(v: Vault, id: nat)
    requires Inv(v) && id in v.accounts
    ensures Shape(v.accounts[id], v.now)
  {
    Known(v, id);
  }

  lemma InvParts(v: Vault)
    requires Inv(v)
    ensures PartsNonNegative(v)
  {
    forall id | id in v.accounts ensures v.accounts[id].sub.prepaid >= 0 { Known(v, id); }
  }

  // ----- Changing one account -----

  lemma SetEachAccount(accounts: map<nat, Account>, now: nat, id: nat, a: Account)
    requires EachAccount(accounts, now) && AccountInv(a, now)
    ensures EachAccount(accounts[id := a], now)
  {
    hide AccountInv;
  }

  lemma SetAccountDisputes(v: Vault, id: nat, a: Account)
    requires DisputesOk(v.disputes, v.accounts) && id in v.accounts
    ensures DisputesOk(v.disputes, v.accounts[id := a])
  {}

  lemma SetAccountEscrows(v: Vault, id: nat, a: Account)
    requires EscrowsOk(v.escrows, v.accounts) && id in v.accounts && a.sub.token == v.accounts[id].sub.token
    ensures EscrowsOk(v.escrows, v.accounts[id := a])
  {}

  lemma SetAccountCoupons(v: Vault, id: nat, a: Account)
    requires CouponsOk(v.accounts, v.redemptions, v.cfg.coupons) && id in v.accounts && a.coupon == v.accounts[id].coupon
    ensures CouponsOk(v.accounts[id := a], v.redemptions, v.cfg.coupons)
  {
    var accounts' := v.accounts[id := a];
    forall code ensures CouponOk(accounts', v.redemptions, v.cfg.coupons, code) {
      assert CouponOk(v.accounts, v.redemptions, v.cfg.coupons, code);
      assert BoundTo(accounts', code) == BoundTo(v.accounts, code);
    }
  }

  lemma SetAccountsOk(v: Vault, id: nat, a: Account)
    requires AccountsOk(v.accounts, v.now, v.nextSub) && id in v.accounts && AccountInv(a, v.now)
    ensures AccountsOk(v.accounts[id := a], v.now, v.nextSub)
  {
    SetEachAccount(v.accounts, v.now, id, a);
    assert v.accounts[id := a].Keys == v.accounts.Keys;
    assert |v.accounts[id := a]| == |v.accounts|;
  }

  /** An account may be replaced by any valid one with the same token and coupon. */
  lemma SetAccountInv(v: Vault, id: nat, a: Account)
    requires Inv(v) && id in v.accounts && AccountInv(a, v.now)
    requires a.sub.token == v.accounts[id].sub.token && a.coupon == v.accounts[id].coupon
    ensures Inv(SetAccount(v, id, a))
  {
    SetAccountsOk(v, id, a);
    SetAccountDisputes(v, id, a);
    SetAccountEscrows(v, id, a);
    SetAccountCoupons(v, id, a);
  }

  lemma EffectiveHarmless(v: Vault, id: nat)
    requires id in v.accounts
    ensures Harmless(v.accounts[id], v.accounts[id].(sub := EffectiveSub(v, id))) && EffectiveSub(v, id).prepaid == v.accounts[id].sub.prepaid
    ensures EffectiveSub(v, id) == v.accounts[id].sub.(status := EffectiveSub(v, id).status)
    ensures EffectiveSub(v, id).status in {v.accounts[id].sub.status, InsufficientFunds}
  {}

  lemma HarmlessSet(v: Vault, id: nat, a: Account)
    requires Inv(v) && id in v.accounts && Harmless(v.accounts[id].(meter := a.meter), a) && a.sub.prepaid >= 0
    ensures Inv(SetAccount(v, id, a))
  {
    Known(v, id);
    HarmlessKeepsInv(v.accounts[id].(meter := a.meter), a, v.now);
    SetAccountInv(v, id, a);
  }

  // ----- Interval charges -----

  lemma PaidInv(v: Vault, token: nat, amount: int)
    requires Inv(v) && Pay(v, token, amount).Ok?
    ensures Inv(Pay(v, token, amount).value)
  {}

  lemma ReceivedInv(v: Vault, token: nat, amount: int)
    requires Inv(v) && Receive(v, token, amount).Ok?
    ensures Inv(Receive(v, token, amount).value)
  {}

  lemma LedgerInv(v: Vault, l: Ledger.Ledger)
    requires Inv(v) && LedgerOk(l)
    ensures Inv(v.(ledger := l))
  {}

  lemma SettleIntervalInv(v: Vault, id: nat, settings: Admin, p: Plan, key: Option<nat>)
    requires Inv(v) && id in v.accounts && SettledBy(v.accounts[id], p, v.now)
    ensures Inv(SettleInterval(v, id, settings, p, key).0)
  {
    var a := v.accounts[id];
    var credits := Credits(a, p.sub.merchant, p.amount, settings.feeBps, settings.treasury);
    Ledger.CreditAllKeeps(v.ledger, credits, p.sub.token, StatementLog.Interval);
    var (ledger, e) := Ledger.CreditAll(v.ledger, credits, p.sub.token, StatementLog.Interval);
    LedgerInv(v, ledger);
    if e.None? {
      RecordIntervalKeepsInv(v.cfg, a, p, id, v.now, key);
      RecordIntervalFrame(v.cfg, a, p, id, v.now, key);
      SetAccountInv(v.(ledger := ledger), id, RecordInterval(v.cfg, a, p, id, v.now, key).0);
    }
  }

  /** What recording leaves alone, and that the debit is all or nothing. */
  lemma RecordIntervalFrame(cfg: Config, a: Account, p: Plan, id: nat, now: nat, key: Option<nat>)
    requires SettledBy(a, p, now)
    ensures var a' := RecordInterval(cfg, a, p, id, now, key).0;
            && a'.coupon == a.coupon && a'.split == a.split && a'.sub.merchant == a.sub.merchant
            && a'.meter == a.meter && a'.limits == a.limits && SameContract(a.sub, a'.sub)
            && a'.chargedPeriod in {a.chargedPeriod, Some(p.period)}
            && (if InI128(p.sub.lifetimeCharged + p.amount)
                then a'.sub.prepaid == a.sub.prepaid - p.amount && a'.sub.lastPayment == Max(now, a.sub.lastPayment)
                else a' == a)
  {
    hide StatementLog.Append, Snapshots.Write, IdemRing.PushKey;
  }

  lemma CarryInv(v: Vault, id: nat, settings: Admin, key: Option<nat>, d: Decision)
    requires Inv(v) && id in v.accounts
    requires MovesNothing(v.accounts[id], d) && (d.Settle? ==> SettledBy(v.accounts[id], d.plan, v.now))
    ensures Inv(Carry(v, id, settings, key, d).0)
  {
    Known(v, id);
    match d {
      case Finish(a', r) => HarmlessSet(v, id, a');
      case Refund(a', payout) =>
        HarmlessSet(v, id, a');
        if payout > 0 && Pay(SetAccount(v, id, a'), a'.sub.token, payout).Ok? {
          PaidInv(SetAccount(v, id, a'), a'.sub.token, payout);
        }
      case Settle(p) => SettleIntervalInv(v, id, settings, p, key);
    }
  }

  /** A charge never touches clock or configuration, and keeps the invariant. */
  lemma ChargeOneInv(v: Vault, id: nat, key: Option<nat>, admin: Option<Admin>, cache: Option<Cache>)
    requires Inv(v)
    ensures Inv(ChargeOne(v, id, key, admin, cache).vault)
  {
    hide DisputesOk, EscrowsOk, CouponsOk, LedgerOk, AccountInv, DecideInterval, Carry;
    if id in v.accounts {
      var settings := if admin.Some? then admin.value else StoredAdmin(v.cfg);
      var a := v.accounts[id];
      Known(v, id);
      FinishIsHarmless(v.cfg, settings, a, id, v.now, v.ledgerSeq, key);
      var d := DecideInterval(v.cfg, settings, a, id, v.now, v.ledgerSeq, key);
      if d.Settle? { SettleGuards(v.cfg, settings, a, id, v.now, v.ledgerSeq, key); }
      CarryInv(v, id, settings, key, d);
    }
  }

  lemma {:induction false} BatchRunInv(v: Vault, ids: seq<nat>, keys: Option<seq<nat>>, admin: Option<Admin>, cache: Option<Cache>, n: nat)
    requires Inv(v) && n <= |ids|
    ensures Inv(BatchRun(v, ids, keys, admin, cache, n).vault)
  {
    hide ChargeOne, Inv;
    if n > 0 {
      BatchRunInv(v, ids, keys, admin, cache, n - 1);
      var b := BatchRun(v, ids, keys, admin, cache, n - 1);
      if !b.trapped { ChargeOneInv(b.vault, ids[n - 1], KeyAt(keys, n - 1), admin, b.cache); }
    }
  }

  // ----- Usage charges -----

  lemma ChargeUsageInv(v: Vault, id: nat, amount: int, reference: string)
    requires Inv(v) && ChargeUsage(v, id, amount, reference).Ok?
    ensures Inv(ChargeUsage(v, id, amount, reference).value.0)
  {
    var a := v.accounts[id];
    UsageDecisionFacts(v.cfg, a, v.now, v.ledgerSeq, amount, reference);
    match DecideUsage(v.cfg, a, v.now, v.ledgerSeq, amount, reference) {
      case FinishUsage(a', r) => HarmlessSet(v, id, a');
      case SettleUsage(metered, p) => SettleMeteredInv(v, id, metered, p, reference);
    }
  }

  lemma RecordUsageFrame(metered: Account, p: Plan, now: nat, reference: string)
    requires RecordUsage(metered, p, now, reference).Ok?
    ensures var a' := RecordUsage(metered, p, now, reference).value; a'.sub == DebitedByUsage(p) && a'.coupon == metered.coupon
  {}

  lemma SettleMeteredInv(v: Vault, id: nat, metered: Account, p: Plan, reference: string)
    requires Inv(v) && id in v.accounts && UsageSettledBy(v.accounts[id], metered, p, v.now)
    requires SettleMetered(v, id, metered, p, reference).Ok?
    ensures Inv(SettleMetered(v, id, metered, p, reference).value.0)
  {
    hide DisputesOk, AccountsOk, EscrowsOk, CouponsOk, ConfigOk, RecordUsage, AccountInv;
    var credits := Credits(metered, p.sub.merchant, p.amount, RouteFeeBps(v.cfg, p.sub.merchant), v.cfg.treasury);
    Ledger.CreditAllKeeps(v.ledger, credits, p.sub.token, StatementLog.Usage);
    var ledger := Ledger.CreditAll(v.ledger, credits, p.sub.token, StatementLog.Usage).0;
    LedgerInv(v, ledger);
    Known(v, id);
    RecordUsageKeepsInv(v.accounts[id], metered, p, v.now, reference);
    RecordUsageFrame(metered, p, v.now, reference);
    SetAccountInv(v.(ledger := ledger), id, RecordUsage(metered, p, v.now, reference).value);
  }

  // ----- Subscriptions -----

  lemma {:induction false} CheckPayeesSums(cfg: Config, payees: seq<(nat, nat)>, n: nat)
    requires n <= |payees| && CheckPayees(cfg, payees, n).Ok?
    ensures CheckPayees(cfg, payees, n).value == ChargeMath.SumWeights(Weights(payees[..n]))
    ensures forall i :: 0 <= i < n ==> payees[i].1 > 0
  {
    if n > 0 {
      CheckPayeesSums(cfg, payees, n - 1);
      assert Weights(payees[..n])[..n - 1] == Weights(payees[..n - 1]);
    }
  }

  /** An accepted split is valid. */
  lemma AcceptedSplitIsValid(cfg: Config, payees: seq<(nat, nat)>)
    requires CheckSplit(cfg, payees).Ok?
    ensures ValidSplit(Some(payees))
  {
    CheckPayeesSums(cfg, payees, |payees|);
    assert payees[..|payees|] == payees;
  }

  lemma {:induction false} CheckPayeesComplete(cfg: Config, payees: seq<(nat, nat)>, n: nat)
    requires n <= |payees| && ChargeMath.SumWeights(Weights(payees[..n])) <= U32_MAX
    requires forall i :: 0 <= i < n ==> payees[i].1 > 0 && payees[i].0 !in cfg.blocked
    ensures CheckPayees(cfg, payees, n).Ok?
  {
    if n > 0 {
      assert Weights(payees[..n])[..n - 1] == Weights(payees[..n - 1]);
      CheckPayeesComplete(cfg, payees, n - 1);
      CheckPayeesSums(cfg, payees, n - 1);
    }
  }

  lemma {:induction false} CheckPayeesUnblocked(cfg: Config, payees: seq<(nat, nat)>, n: nat)
    requires n <= |payees| && CheckPayees(cfg, payees, n).Ok?
    ensures forall i :: 0 <= i < n ==> payees[i].0 !in cfg.blocked
  {
    if n > 0 { CheckPayeesUnblocked(cfg, payees, n - 1); }
  }

  /** A split is accepted exactly when it is not empty, every weight is positive, the weights sum
      to 10000 and no payee is blocklisted; the u32 running total never gets in the way. */
  lemma SplitAcceptedIff(cfg: Config, payees: seq<(nat, nat)>)
    ensures CheckSplit(cfg, payees).Ok?
       <==> ValidSplit(Some(payees)) && forall i :: 0 <= i < |payees| ==> payees[i].0 !in cfg.blocked
  {
    assert payees[..|payees|] == payees;
    if CheckSplit(cfg, payees).Ok? {
      AcceptedSplitIsValid(cfg, payees);
      CheckPayeesUnblocked(cfg, payees, |payees|);
    } else if ValidSplit(Some(payees)) && forall i :: 0 <= i < |payees| ==> payees[i].0 !in cfg.blocked {
      CheckPayeesComplete(cfg, payees, |payees|);
      CheckPayeesSums(cfg, payees, |payees|);
    }
  }

  lemma NewAccountInv(a: Account, now: nat)
    requires a.log == StatementLog.EMPTY && a.snaps == Snapshots.EMPTY && a.idem == IdemRing.EMPTY && a.chargedPeriod == None
    requires Shape(a, now) && a.sub.lifetimeCharged == 0 && (a.sub.lifetimeCap.Some? ==> a.sub.lifetimeCap.value > 0)
    ensures AccountInv(a, now)
  {
    assert BilledBy(a.log, [], 0);
  }

  lemma AddAccountsOk(accounts: map<nat, Account>, now: nat, id: nat, a: Account)
    requires AccountsOk(accounts, now, id) && id < U32_MAX && AccountInv(a, now)
    ensures id !in accounts && AccountsOk(accounts[id := a], now, id + 1)
  {
    hide AccountInv;
    SetEachAccount(accounts, now, id, a);
    assert accounts[id := a].Keys == accounts.Keys + {id};
    assert |accounts[id := a]| == |accounts.Keys + {id}| == id + 1;
  }

  lemma AddAccountInv(v: Vault, a: Account)
    requires Inv(v) && v.nextSub < U32_MAX && AccountInv(a, v.now) && a.coupon.None?
    ensures Inv(SetAccount(v, v.nextSub, a).(nextSub := v.nextSub + 1))
  {
    hide AccountInv, EachAccount;
    AddAccountsOk(v.accounts, v.now, v.nextSub, a);
    NewAccountCoupons(v, v.nextSub, a);
  }

  lemma NewAccountCoupons(v: Vault, id: nat, a: Account)
    requires CouponsOk(v.accounts, v.redemptions, v.cfg.coupons) && id !in v.accounts && a.coupon.None?
    ensures CouponsOk(v.accounts[id := a], v.redemptions, v.cfg.coupons)
  {
    var accounts' := v.accounts[id := a];
    forall code ensures CouponOk(accounts', v.redemptions, v.cfg.coupons, code) {
      assert CouponOk(v.accounts, v.redemptions, v.cfg.coupons, code);
      assert BoundTo(accounts', code) == BoundTo(v.accounts, code);
    }
  }

  lemma MerchantsInv(v: Vault, merchants: Merchants)
    requires Inv(v)
    ensures Inv(v.(merchants := merchants))
  {}

  lemma CreateInv(
    v: Vault, subscriber: nat, merchant: nat, token: nat, amount: int, interval: nat, usageEnabled: bool,
    cap: Option<int>, expiresAt: Option<nat>, expiresAtLedger: Option<nat>, split: Option<seq<(nat, nat)>>,
    proration: bool, limits: Option<UsageMeter.Limits>)
    requires Inv(v)
    ensures Inv(KeptFirst(v, CreateSubscription(v, subscriber, merchant, token, amount, interval, usageEnabled, cap, expiresAt, expiresAtLedger, split, proration, limits)))
  {
    hide Inv, AccountInv;
    var r := CreateSubscription(v, subscriber, merchant, token, amount, interval, usageEnabled, cap, expiresAt, expiresAtLedger, split, proration, limits);
    if r.Ok? {
      if split.Some? { AcceptedSplitIsValid(v.cfg, split.value); }
      var a := r.value.0.accounts[v.nextSub];
      NewAccountInv(a, v.now);
      AddAccountInv(v, a);
      var grown := SetAccount(v, v.nextSub, a).(nextSub := v.nextSub + 1);
      assert r.value.0 == grown.(merchants := r.value.0.merchants);
      MerchantsInv(grown, r.value.0.merchants);
    }
  }

  /** Replacing the split keeps the account valid. */
  lemma UpdateSplitInv(v: Vault, caller: nat, id: nat, payees: Option<seq<(nat, nat)>>)
    requires Inv(v)
    ensures Inv(Kept(v, UpdateSplit(v, caller, id, payees)))
  {
    if UpdateSplit(v, caller, id, payees).Ok? {
      Known(v, id);
      if payees.Some? { AcceptedSplitIsValid(v.cfg, payees.value); }
      SetAccountInv(v, id, v.accounts[id].(split := payees));
    }
  }

  lemma DepositInv(v: Vault, id: nat, amount: int)
    requires Inv(v)
    ensures Inv(Kept(v, Deposit(v, id, amount)))
  {
    hide AccountInv, Inv;
    if Deposit(v, id, amount).Ok? {
      KnownShape(v, id);
      EffectiveHarmless(v, id);
      var s := EffectiveSub(v, id);
      var a := v.accounts[id].(sub := s.(prepaid := s.prepaid + amount), failures := 0);
      HarmlessSet(v, id, a);
      ReceivedInv(SetAccount(v, id, a), s.token, amount);
    }
  }

  lemma ScheduleCancelInv(v: Vault, caller: nat, id: nat, cancelAt: nat)
    requires Inv(v)
    ensures Inv(Kept(v, ScheduleCancel(v, caller, id, cancelAt)))
  {
    hide AccountInv, DisputesOk, AccountsOk, CouponsOk, ConfigOk, LedgerOk, EscrowsOk;
    if ScheduleCancel(v, caller, id, cancelAt).Ok? {
      KnownShape(v, id);
      EffectiveHarmless(v, id);
      HarmlessSet(v, id, v.accounts[id].(sub := EffectiveSub(v, id).(cancelAt := Some(cancelAt))));
    }
  }

  lemma UnscheduleCancelInv(v: Vault, caller: nat, id: nat)
    requires Inv(v)
    ensures Inv(Kept(v, UnscheduleCancel(v, caller, id)))
  {
    hide AccountInv, DisputesOk, AccountsOk, CouponsOk, ConfigOk, LedgerOk, EscrowsOk;
    if UnscheduleCancel(v, caller, id).Ok? {
      KnownShape(v, id);
      EffectiveHarmless(v, id);
      HarmlessSet(v, id, v.accounts[id].(sub := EffectiveSub(v, id).(cancelAt := None)));
    }
  }

  lemma SetAutoRenewInv(v: Vault, caller: nat, id: nat, enabled: bool)
    requires Inv(v)
    ensures Inv(Kept(v, SetAutoRenew(v, caller, id, enabled)))
  {
    hide Inv, AccountInv, EffectiveSub, InRenewalWindow, IsExpired;
    if SetAutoRenew(v, caller, id, enabled).Ok? {
      KnownShape(v, id);
      Known(v, id);
      EffectiveHarmless(v, id);
      var a, b := v.accounts[id].(sub := EffectiveSub(v, id)), Kept(v, SetAutoRenew(v, caller, id, enabled)).accounts[id];
      HarmlessKeepsInv(v.accounts[id], a, v.now);
      RenewalKeepsInv(a, enabled, b.sub.renewDisabledAt, v.now);
      SetAccountInv(v, id, b);
    }
  }

  lemma CancelInv(v: Vault, caller: nat, id: nat)
    requires Inv(v)
    ensures Inv(Kept(v, Cancel(v, caller, id)))
  {
    hide AccountInv, DisputesOk, AccountsOk, CouponsOk, ConfigOk, LedgerOk, EscrowsOk;
    if Cancel(v, caller, id).Ok? {
      EffectiveHarmless(v, id);
      var s := EffectiveSub(v, id);
      HarmlessSet(v, id, v.accounts[id].(sub := s.(status := Cancelled, prepaid := 0)));
    }
  }

  lemma ChangeStatusInv(v: Vault, id: nat, next: Status)
    requires Inv(v)
    ensures Inv(Kept(v, ChangeStatus(v, id, next)))
  {
    hide AccountInv, DisputesOk, AccountsOk, CouponsOk, ConfigOk, LedgerOk, EscrowsOk;
    if ChangeStatus(v, id, next).Ok? {
      KnownShape(v, id);
      EffectiveHarmless(v, id);
      HarmlessSet(v, id, v.accounts[id].(sub := EffectiveSub(v, id).(status := next)));
    }
  }

  lemma WithdrawSubscriberInv(v: Vault, caller: nat, id: nat)
    requires Inv(v)
    ensures Inv(Kept(v, WithdrawSubscriber(v, caller, id)))
  {
    hide AccountInv, DisputesOk, AccountsOk, CouponsOk, ConfigOk, LedgerOk, EscrowsOk;
    if WithdrawSubscriber(v, caller, id).Ok? {
      EffectiveHarmless(v, id);
      HarmlessSet(v, id, v.accounts[id].(sub := EffectiveSub(v, id).(prepaid := 0)));
      DropEscrowInv(v, id);
    }
  }

  lemma CompactStatementsInv(v: Vault, id: nat, keepRecent: nat)
    requires Inv(v)
    ensures Inv(KeptFirst(v, CompactStatements(v, id, keepRecent)))
    ensures CompactStatements(v, id, keepRecent).Ok?
  {
    if id in v.accounts {
      CompactionKeepsInv(v.accounts[id], v.now, keepRecent);
      SetAccountInv(v, id, v.accounts[id].(log := StatementLog.Compact(v.accounts[id].log, keepRecent).value.0));
    }
  }

  // ----- Coupons -----

  lemma {:induction false} OnesBound(m: map<nat, int>)
    requires forall k :: k in m ==> m[k] == 1
    ensures Sums.Sum(m) == |m|
    decreases |m|
  {
    if m != map[] {
      var k :| k in m;
      Sums.SumSplit(m, k);
      OnesBound(m - {k});
      assert (m - {k}).Keys == m.Keys - {k};
    }
  }

  /** An unbound account leaves room below the width of the counter. */
  lemma RedemptionsBelowWidth(v: Vault, id: nat, code: nat)
    requires Inv(v) && id in v.accounts && v.accounts[id].coupon != Some(code)
    ensures Redemptions(v, code) < U32_MAX
  {
    hide AccountInv, DisputesOk, EscrowsOk, LedgerOk, ConfigOk;
    assert CouponOk(v.accounts, v.redemptions, v.cfg.coupons, code);
    var bound := BoundTo(v.accounts, code);
    OnesBound(bound);
    assert bound.Keys <= v.accounts.Keys - {id};
    SubsetSize(bound.Keys, v.accounts.Keys - {id});
    assert |v.accounts.Keys - {id}| == |v.accounts.Keys| - 1;
    assert |bound| == |bound.Keys| && |v.accounts| == |v.accounts.Keys|;
  }

  lemma {:induction false} SubsetSize(a: set<nat>, b: set<nat>)
    requires a <= b
    ensures |a| <= |b|
  {
    if a != {} {
      var x :| x in a;
      SubsetSize(a - {x}, b - {x});
    }
  }

  lemma BindingCounts(accounts: map<nat, Account>, id: nat, code: nat, c: nat)
    requires id in accounts && accounts[id].coupon.None?
    ensures Sums.Sum(BoundTo(accounts[id := accounts[id].(coupon := Some(code))], c)) == Sums.Sum(BoundTo(accounts, c)) + (if c == code then 1 else 0)
  {
    var accounts' := accounts[id := accounts[id].(coupon := Some(code))];
    if c == code {
      assert BoundTo(accounts', c) == BoundTo(accounts, c)[id := 1];
      Sums.SumUpdate(BoundTo(accounts, c), id, 1);
    } else {
      assert BoundTo(accounts', c) == BoundTo(accounts, c);
    }
  }

  /** Binding a coupon counts it once and respects the limit. */
  lemma ApplyCouponInv(v: Vault, caller: nat, id: nat, code: nat)
    requires Inv(v)
    ensures Inv(Kept(v, ApplyCoupon(v, caller, id, code)))
  {
    hide DisputesOk, AccountsOk, EscrowsOk, CouponsOk, LedgerOk, ConfigOk, AccountInv;
    if ApplyCoupon(v, caller, id, code).Ok? {
      RedemptionsBelowWidth(v, id, code);
      var a := v.accounts[id].(coupon := Some(code));
      CouponKeepsAccount(v, id, code);
      SetAccountsOk(v, id, a);
      SetAccountDisputes(v, id, a);
      SetAccountEscrows(v, id, a);
      BindingKeepsCoupons(v, id, code);
    }
  }

  lemma CouponKeepsAccount(v: Vault, id: nat, code: nat)
    requires Inv(v) && id in v.accounts
    ensures AccountInv(v.accounts[id].(coupon := Some(code)), v.now)
  {
    Known(v, id);
  }

  lemma BindingKeepsCoupons(v: Vault, id: nat, code: nat)
    requires CouponsOk(v.accounts, v.redemptions, v.cfg.coupons) && id in v.accounts && v.accounts[id].coupon.None?
    requires Redemptions(v, code) < U32_MAX && code in v.cfg.coupons
    requires v.cfg.coupons[code].maxRedemptions > 0 ==> Redemptions(v, code) < v.cfg.coupons[code].maxRedemptions
    ensures CouponsOk(v.accounts[id := v.accounts[id].(coupon := Some(code))], v.redemptions[code := Redemptions(v, code) + 1], v.cfg.coupons)
  {
    var accounts' := v.accounts[id := v.accounts[id].(coupon := Some(code))];
    var redemptions' := v.redemptions[code := Redemptions(v, code) + 1];
    forall c ensures CouponOk(accounts', redemptions', v.cfg.coupons, c) {
      assert CouponOk(v.accounts, v.redemptions, v.cfg.coupons, c);
      BindingCounts(v.accounts, id, code, c);
    }
  }

  /** A coupon may be added, or changed without touching its limit. */
  lemma SetCouponOk(accounts: map<nat, Account>, redemptions: map<nat, nat>, coupons: map<nat, Coupon>, code: nat, c: Coupon)
    requires CouponsOk(accounts, redemptions, coupons)
    requires code in coupons ==> c.maxRedemptions == coupons[code].maxRedemptions
    ensures CouponsOk(accounts, redemptions, coupons[code := c])
  {
    var coupons' := coupons[code := c];
    forall other ensures CouponOk(accounts, redemptions, coupons', other) {
      assert CouponOk(accounts, redemptions, coupons, other);
    }
  }

  lemma CreateCouponInv(v: Vault, code: nat, c: Coupon)
    requires Inv(v)
    ensures Inv(Kept(v, CreateCoupon(v, code, c)))
  {
    hide AccountsOk, DisputesOk, EscrowsOk, LedgerOk, CouponsOk;
    if CreateCoupon(v, code, c).Ok? { SetCouponOk(v.accounts, v.redemptions, v.cfg.coupons, code, c.(revoked := false)); }
  }

  lemma RevokeCouponInv(v: Vault, code: nat)
    requires Inv(v)
    ensures Inv(Kept(v, RevokeCoupon(v, code)))
  {
    hide AccountsOk, DisputesOk, EscrowsOk, LedgerOk, CouponsOk;
    if code in v.cfg.coupons { SetCouponOk(v.accounts, v.redemptions, v.cfg.coupons, code, v.cfg.coupons[code].(revoked := true)); }
  }

  // ----- Disputes -----

  lemma OpenRecordOk(v: Vault, d: Dispute)
    requires DisputesOk(v.disputes, v.accounts) && d.subscription in v.accounts && d.amount > 0 && d.status == Open
    requires d.subscription !in v.disputes.active && v.disputes.nextId < U64_MAX
    ensures DisputesOk(OpenRecord(v, d).disputes, v.accounts)
  {}

  lemma OpenRecordInv(v: Vault, d: Dispute)
    requires Inv(v) && d.subscription in v.accounts && d.amount > 0 && d.status == Open
    requires d.subscription !in v.disputes.active && v.disputes.nextId < U64_MAX
    ensures Inv(OpenRecord(v, d))
  {
    OpenRecordOk(v, d);
    hide DisputesOk, AccountsOk, EscrowsOk, CouponsOk, LedgerOk, ConfigOk;
  }

  lemma OpenDisputeInv(v: Vault, caller: nat, id: nat, amount: int)
    requires Inv(v) && v.disputes.nextId < U64_MAX
    ensures Inv(KeptFirst(v, OpenDispute(v, caller, id, amount)))
  {
    hide DisputesOk, AccountsOk, EscrowsOk, CouponsOk, ConfigOk;
    if OpenDispute(v, caller, id, amount).Ok? {
      var s := v.accounts[id].sub;
      var l := Ledger.SetBalance(v.ledger, s.merchant, s.token, Ledger.BalanceOf(v.ledger, s.merchant, s.token) - amount);
      LedgerInv(v, l);
      OpenRecordInv(v.(ledger := l), Dispute(id, caller, s.merchant, amount, v.now, Open, None));
    }
  }

  /** Answering changes the status of an unresolved dispute and nothing else. */
  lemma RespondOk(ds: Disputes, accounts: map<nat, Account>, id: nat, respondedAt: Option<nat>)
    requires DisputesOk(ds, accounts) && id in ds.records && ds.records[id].status == Open
    ensures DisputesOk(ds.(records := ds.records[id := ds.records[id].(status := Responded, respondedAt := respondedAt)]), accounts)
  {}

  lemma RespondDisputeInv(v: Vault, disputeId: nat)
    requires Inv(v)
    ensures Inv(Kept(v, RespondDispute(v, disputeId)))
  {
    if RespondDispute(v, disputeId).Ok? { RespondOk(v.disputes, v.accounts, disputeId, Some(v.now)); }
    hide DisputesOk, AccountsOk, EscrowsOk, CouponsOk, LedgerOk, ConfigOk;
  }

  /** Closing a dispute removes its escrow and its index entry. */
  lemma CloseOk(ds: Disputes, accounts: map<nat, Account>, id: nat, outcome: DisputeStatus)
    requires DisputesOk(ds, accounts) && id in ds.escrow && Resolved(outcome)
    ensures DisputesOk(Disputes(ds.records[id := ds.records[id].(status := outcome)], ds.escrow - {id},
                                ds.active - {ds.records[id].subscription}, ds.nextId), accounts)
  {}

  lemma DisburseInv(v: Vault, disputeId: nat, outcome: DisputeStatus, remaining: int)
    requires Inv(v) && disputeId in v.disputes.escrow && Resolved(outcome) && remaining == v.disputes.records[disputeId].amount
    ensures Inv(Kept(v, Disburse(v, disputeId, v.disputes.records[disputeId], outcome, remaining)))
  {
    CloseOk(v.disputes, v.accounts, disputeId, outcome);
    assert remaining > 0;
    hide DisputesOk, AccountsOk, EscrowsOk, CouponsOk, ConfigOk;
  }

  /** The escrow of an unresolved dispute is its whole amount. */
  lemma EscrowIsAmount(v: Vault, disputeId: nat)
    requires DisputesOk(v.disputes, v.accounts) && disputeId in v.disputes.escrow
    ensures disputeId in v.disputes.records && v.disputes.escrow[disputeId] == Escrow(v.disputes.records[disputeId].amount, 0)
    ensures v.disputes.records[disputeId].amount > 0
  {}

  lemma ResolveDisputeInv(v: Vault, disputeId: nat, toSubscriber: bool)
    requires Inv(v)
    ensures Inv(Kept(v, ResolveDispute(v, disputeId, toSubscriber)))
  {
    hide DisputesOk, AccountsOk, EscrowsOk, CouponsOk, ConfigOk, LedgerOk, Disburse;
    if ResolveDispute(v, disputeId, toSubscriber).Ok? {
      EscrowIsAmount(v, disputeId);
      var d := v.disputes.records[disputeId];
      var outcome := Resolution(d, SaturatingSub(v.now, d.openedAt) >= v.cfg.disputeWindow, toSubscriber);
      DisburseInv(v, disputeId, outcome.value, d.amount);
    }
  }

  lemma DropEscrowInv(v: Vault, id: nat)
    requires Inv(v)
    ensures Inv(v.(escrows := v.escrows - {id}))
  {
    hide DisputesOk, AccountsOk, CouponsOk, ConfigOk, LedgerOk;
  }

  lemma ClaimEscrowInv(v: Vault, caller: nat, id: nat)
    requires Inv(v)
    ensures Inv(Kept(v, ClaimEscrow(v, caller, id)))
  {
    hide DisputesOk, AccountsOk, CouponsOk, ConfigOk, LedgerOk, EscrowsOk;
    DropEscrowInv(v, id);
  }

  lemma LodgeEscrowDisputeInv(v: Vault, caller: nat, id: nat)
    requires Inv(v) && v.disputes.nextId < U64_MAX
    ensures Inv(KeptFirst(v, LodgeEscrowDispute(v, caller, id)))
  {
    hide DisputesOk, AccountsOk, CouponsOk, ConfigOk, LedgerOk;
    if LodgeEscrowDispute(v, caller, id).Ok? {
      var e := v.escrows[id];
      DropEscrowInv(v, id);
      OpenRecordInv(v.(escrows := v.escrows - {id}), Dispute(id, e.subscriber, e.merchant, e.amount, v.now, Open, None));
    }
  }

  // ----- Merchants -----

  /** Lowering a balance and changing the payout books leaves the ledger valid. */
  lemma PaidOutLedger(l: Ledger.Ledger, who: nat, token: nat, x: int, e: Ledger.Earnings)
    requires LedgerOk(l) && x >= 0 && e == Ledger.EarningsOf(l, who, token).(withdrawals := e.withdrawals, refunds := e.refunds)
    ensures LedgerOk(SetEarnings(Ledger.SetBalance(l, who, token, x), who, token, e))
  {}

  lemma PayoutInv(v: Vault, l: Ledger.Ledger, token: nat, amount: int)
    requires Inv(v) && LedgerOk(l)
    ensures Inv(Kept(v, Pay(v.(ledger := l), token, amount)))
  {}

  lemma WithdrawMerchantInv(v: Vault, merchant: nat, token: nat, amount: int)
    requires Inv(v)
    ensures Inv(Kept(v, WithdrawMerchant(v, merchant, token, amount)))
  {
    hide AccountsOk, DisputesOk, EscrowsOk, CouponsOk, ConfigOk, LedgerOk, Ledger.EarningsOf;
    if WithdrawMerchant(v, merchant, token, amount).Ok? {
      var e := Ledger.EarningsOf(v.ledger, merchant, token);
      var e' := e.(refunds := e.refunds + amount, withdrawals := e.withdrawals + amount);
      var x := Ledger.BalanceOf(v.ledger, merchant, token) - amount;
      PaidOutLedger(v.ledger, merchant, token, x, e');
      PayoutInv(v, SetEarnings(Ledger.SetBalance(v.ledger, merchant, token, x), merchant, token, e'), token, amount);
    }
  }

  lemma MerchantRefundInv(v: Vault, merchant: nat, token: nat, amount: int)
    requires Inv(v)
    ensures Inv(Kept(v, MerchantRefund(v, merchant, token, amount)))
  {
    hide AccountsOk, DisputesOk, EscrowsOk, CouponsOk, ConfigOk, LedgerOk, Ledger.EarningsOf;
    if MerchantRefund(v, merchant, token, amount).Ok? {
      var e := Ledger.EarningsOf(v.ledger, merchant, token);
      var e' := e.(refunds := e.refunds + amount);
      var x := Ledger.BalanceOf(v.ledger, merchant, token) - amount;
      PaidOutLedger(v.ledger, merchant, token, x, e');
      PayoutInv(v, SetEarnings(Ledger.SetBalance(v.ledger, merchant, token, x), merchant, token, e'), token, amount);
    }
  }

  lemma FlushTokenInv(v: Vault, merchant: nat, token: nat, minPayout: int)
    requires Inv(v)
    ensures Inv(KeptFirst(v, FlushToken(v, merchant, token, minPayout)))
  {}

  lemma {:induction false} FlushTokensInv(v: Vault, merchant: nat, tokens: seq<nat>, minPayout: int, n: nat)
    requires Inv(v) && n <= |tokens|
    ensures Inv(KeptFirst(v, FlushTokens(v, merchant, tokens, minPayout, n)))
  {
    hide Inv, FlushToken;
    if n > 0 && FlushTokens(v, merchant, tokens, minPayout, n).Ok? {
      FlushTokensInv(v, merchant, tokens, minPayout, n - 1);
      FlushTokenInv(FlushTokens(v, merchant, tokens, minPayout, n - 1).value.0, merchant, tokens[n - 1], minPayout);
    }
  }

  lemma FlushPayoutsInv(v: Vault, merchant: nat)
    requires Inv(v)
    ensures Inv(KeptFirst(v, FlushPayouts(v, merchant)))
  {
    hide DisputesOk, AccountsOk, EscrowsOk, CouponsOk, LedgerOk, ConfigOk, FlushTokens;
    FlushTokensInv(v, merchant, Ledger.TokensOf(v.ledger, merchant), ScheduleOf(v, merchant).minPayout, |Ledger.TokensOf(v.ledger, merchant)|);
  }

  lemma {:induction false} MoveTokensOk(l: Ledger.Ledger, oldAddr: nat, newAddr: nat, tokens: seq<nat>, n: nat)
    requires LedgerOk(l) && n <= |tokens|
    ensures MoveTokens(l, oldAddr, newAddr, tokens, n).Ok? ==> LedgerOk(MoveTokens(l, oldAddr, newAddr, tokens, n).value)
  {
    if n > 0 { MoveTokensOk(l, oldAddr, newAddr, tokens, n - 1); }
  }

  lemma ReaddressAccounts(v: Vault, ids: seq<nat>, oldAddr: nat, newAddr: nat)
    requires Inv(v)
    ensures AccountsOk(Readdress(v.accounts, ids, oldAddr, newAddr), v.now, v.nextSub)
  {
    hide AccountInv;
    var accounts' := Readdress(v.accounts, ids, oldAddr, newAddr);
    assert accounts'.Keys == v.accounts.Keys;
    assert |accounts'| == |v.accounts|;
    forall id {:trigger AccountInv(accounts'[id], v.now)} | id in accounts' ensures AccountInv(accounts'[id], v.now) {
      Known(v, id);
      HarmlessMerchant(v.accounts[id], accounts'[id].sub.merchant, v.now);
      assert accounts'[id] == v.accounts[id].(sub := v.accounts[id].sub.(merchant := accounts'[id].sub.merchant));
    }
  }

  lemma ReaddressInv(v: Vault, ids: seq<nat>, oldAddr: nat, newAddr: nat)
    requires Inv(v)
    ensures Inv(v.(accounts := Readdress(v.accounts, ids, oldAddr, newAddr)))
  {
    hide AccountsOk, ConfigOk, LedgerOk;
    ReaddressAccounts(v, ids, oldAddr, newAddr);
    ReaddressCoupons(v, ids, oldAddr, newAddr);
  }

  lemma ReaddressCoupons(v: Vault, ids: seq<nat>, oldAddr: nat, newAddr: nat)
    requires CouponsOk(v.accounts, v.redemptions, v.cfg.coupons)
    ensures CouponsOk(Readdress(v.accounts, ids, oldAddr, newAddr), v.redemptions, v.cfg.coupons)
  {
    var accounts' := Readdress(v.accounts, ids, oldAddr, newAddr);
    forall code ensures CouponOk(accounts', v.redemptions, v.cfg.coupons, code) {
      assert CouponOk(v.accounts, v.redemptions, v.cfg.coupons, code);
      assert BoundTo(accounts', code) == BoundTo(v.accounts, code);
    }
  }

  lemma HarmlessMerchant(a: Account, merchant: nat, now: nat)
    requires AccountInv(a, now)
    ensures AccountInv(a.(sub := a.sub.(merchant := merchant)), now)
  {}

  lemma RotatedInv(v: Vault, l: Ledger.Ledger, cfg: Config, merchants: Merchants)
    requires Inv(v) && LedgerOk(l) && ConfigOk(cfg) && cfg.coupons == v.cfg.coupons
    ensures Inv(v.(ledger := l, cfg := cfg, merchants := merchants))
  {}

  lemma RotateMerchantInv(v: Vault, oldAddr: nat, newAddr: nat)
    requires Inv(v)
    ensures Inv(Kept(v, RotateMerchant(v, oldAddr, newAddr)))
  {
    hide AccountsOk, DisputesOk, EscrowsOk, CouponsOk, MoveTokens, Readdress;
    if RotateMerchant(v, oldAddr, newAddr).Ok? {
      var tokens := Ledger.TokensOf(v.ledger, oldAddr);
      MoveTokensOk(v.ledger, oldAddr, newAddr, tokens, |tokens|);
      var ids := if oldAddr in v.merchants.subs then v.merchants.subs[oldAddr] else [];
      ReaddressInv(v, ids, oldAddr, newAddr);
      var v' := RotateMerchant(v, oldAddr, newAddr).value;
      RotatedInv(v.(accounts := Readdress(v.accounts, ids, oldAddr, newAddr)), v'.ledger, v'.cfg, v'.merchants);
    }
  }

  // ----- Every step, every run -----

  lemma TickInv(v: Vault, seconds: nat, ledgers: nat)
    requires Inv(v)
    ensures Inv(Advance(v, seconds, ledgers))
  {
    forall id | id in v.accounts ensures AccountInv(v.accounts[id], SaturatingAdd64(v.now, seconds)) {
      InvLater(v.accounts[id], v.now, SaturatingAdd64(v.now, seconds));
    }
  }

  lemma ChargeInv(v: Vault, id: nat, key: Option<nat>)
    requires Inv(v)
    ensures Inv(KeptFirst(v, ChargeSubscription(v, id, key)))
  {
    hide ChargeOne, Inv;
    ChargeOneInv(v, id, key, None, None);
  }

  lemma MeteredChargeInv(v: Vault, id: nat, amount: int, reference: string)
    requires Inv(v)
    ensures Inv(KeptFirst(v, ChargeUsage(v, id, amount, reference)))
  {
    hide ChargeUsage, Inv;
    if ChargeUsage(v, id, amount, reference).Ok? { ChargeUsageInv(v, id, amount, reference); }
  }

  lemma ReconfigureInv(v: Vault, cfg: Config)
    requires Inv(v)
    ensures Inv(Configure(v, cfg))
  {
    hide DisputesOk, AccountsOk, EscrowsOk, CouponsOk, LedgerOk;
  }

  lemma SetScheduleInv(v: Vault, merchant: nat, cadence: nat, minPayout: int)
    requires Inv(v)
    ensures Inv(Kept(v, SetSchedule(v, merchant, cadence, minPayout)))
  {
    hide DisputesOk, AccountsOk, EscrowsOk, CouponsOk, LedgerOk, ConfigOk;
  }

  lemma MerchantConfigInv(v: Vault, merchant: nat, feeBips: int, operations: int, paused: bool)
    requires Inv(v)
    ensures Inv(Kept(v, InitializeMerchant(v, merchant, feeBips, operations)))
    ensures Inv(Kept(v, SetMerchantConfig(v, merchant, feeBips, operations, paused)))
  {
    hide DisputesOk, AccountsOk, EscrowsOk, CouponsOk, LedgerOk;
  }

  lemma BatchInv(v: Vault, ids: seq<nat>, keys: Option<seq<nat>>)
    requires Inv(v)
    ensures Inv(KeptFirst(v, BatchCharge(v, ids, keys)))
  {
    hide Inv, BatchRun;
    BatchRunInv(v, ids, keys, ReadAdmin(v.cfg), Some(map[]), |ids|);
  }

  lemma ChargeCallInv(v: Vault, op: Op)
    requires Inv(v) && IsCharge(op)
    ensures Inv(ChargeStep(v, op))
  {
    hide Inv, Kept, KeptFirst, BatchCharge, ChargeSubscription, ChargeUsage;
    match op {
      case Charge(id, key) => ChargeInv(v, id, key);
      case Batch(ids, keys) => BatchInv(v, ids, keys);
      case MeteredCharge(id, amount, reference) => MeteredChargeInv(v, id, amount, reference);
    }
  }

  lemma SettingInv(v: Vault, op: Op)
    requires Inv(v) && IsSetting(op)
    ensures Inv(SettingStep(v, op))
  {
    hide Inv, Advance, Configure;
    match op {
      case Tick(seconds, ledgers) => TickInv(v, seconds, ledgers);
      case Reconfigure(cfg) => ReconfigureInv(v, cfg);
    }
  }

  lemma DisputeCallInv(v: Vault, op: Op)
    requires Inv(v) && IsDisputeCall(op) && (op.RaiseDispute? || op.Lodge? ==> v.disputes.nextId < U64_MAX)
    ensures Inv(DisputeStep(v, op))
  {
    hide Inv, Kept, KeptFirst, OpenDispute, RespondDispute, ResolveDispute, LodgeEscrowDispute;
    match op {
      case RaiseDispute(caller, id, amount) => OpenDisputeInv(v, caller, id, amount);
      case Respond(d) => RespondDisputeInv(v, d);
      case Resolve(d, toSubscriber) => ResolveDisputeInv(v, d, toSubscriber);
      case Lodge(caller, id) => LodgeEscrowDisputeInv(v, caller, id);
    }
  }

  lemma MerchantCallInv(v: Vault, op: Op)
    requires Inv(v) && IsMerchantCall(op)
    ensures Inv(MerchantStep(v, op))
  {
    hide Inv, Kept, KeptFirst, InitializeMerchant, SetMerchantConfig, SetSchedule, WithdrawMerchant, MerchantRefund, FlushPayouts, RotateMerchant;
    match op {
      case NewMerchant(m, feeBips, operations) => MerchantConfigInv(v, m, feeBips, operations, false);
      case MerchantSettings(m, feeBips, operations, paused) => MerchantConfigInv(v, m, feeBips, operations, paused);
      case PayoutSchedule(m, cadence, min) => SetScheduleInv(v, m, cadence, min);
      case MerchantWithdrawal(m, token, amount) => WithdrawMerchantInv(v, m, token, amount);
      case RefundByMerchant(m, token, amount) => MerchantRefundInv(v, m, token, amount);
      case Flush(m) => FlushPayoutsInv(v, m);
      case Rotate(oldAddr, newAddr) => RotateMerchantInv(v, oldAddr, newAddr);
    }
  }

  lemma CouponCallInv(v: Vault, op: Op)
    requires Inv(v) && IsCouponCall(op)
    ensures Inv(CouponStep(v, op))
  {
    hide Inv, Kept, CreateCoupon, RevokeCoupon, ApplyCoupon;
    match op {
      case NewCoupon(code, c) => CreateCouponInv(v, code, c);
      case EndCoupon(code) => RevokeCouponInv(v, code);
      case BindCoupon(caller, id, code) => ApplyCouponInv(v, caller, id, code);
    }
  }

  lemma SubscriptionCallInv(v: Vault, op: Op)
    requires Inv(v) && IsSubscriptionCall(op)
    ensures Inv(SubscriptionStep(v, op))
  {
    hide Inv, Kept, KeptFirst, CreateSubscription, UpdateSplit, Deposit, CompactStatements, ScheduleCancel, UnscheduleCancel, SetAutoRenew, Cancel, ChangeStatus, WithdrawSubscriber, ClaimEscrow;
    match op {
      case Create(subscriber, merchant, token, amount, interval, usage, cap, exp, expLedger, split, proration, limits) =>
        CreateInv(v, subscriber, merchant, token, amount, interval, usage, cap, exp, expLedger, split, proration, limits);
      case SetSplit(caller, id, payees) => UpdateSplitInv(v, caller, id, payees);
      case DoDeposit(id, amount) => DepositInv(v, id, amount);
      case Compaction(id, keepRecent) => CompactStatementsInv(v, id, keepRecent);
      case ScheduleCancellation(caller, id, at) => ScheduleCancelInv(v, caller, id, at);
      case UnscheduleCancellation(caller, id) => UnscheduleCancelInv(v, caller, id);
      case ToggleRenewal(caller, id, enabled) => SetAutoRenewInv(v, caller, id, enabled);
      case CancelNow(caller, id) => CancelInv(v, caller, id);
      case SetStatus(id, next) => ChangeStatusInv(v, id, next);
      case SubscriberWithdrawal(caller, id) => WithdrawSubscriberInv(v, caller, id);
      case Claim(caller, id) => ClaimEscrowInv(v, caller, id);
    }
  }

  /** Every call keeps the invariant, whether it succeeds or not, while dispute ids last. */
  lemma StepInv(v: Vault, op: Op)
    requires Inv(v) && (op.RaiseDispute? || op.Lodge? ==> v.disputes.nextId < U64_MAX)
    ensures Inv(Step(v, op))
  {
    hide Inv, ChargeStep, SettingStep, DisputeStep, MerchantStep, CouponStep, SubscriptionStep;
    if IsCharge(op) { ChargeCallInv(v, op); }
    else if IsSetting(op) { SettingInv(v, op); }
    else if IsDisputeCall(op) { DisputeCallInv(v, op); }
    else if IsMerchantCall(op) { MerchantCallInv(v, op); }
    else if IsCouponCall(op) { CouponCallInv(v, op); }
    else { SubscriptionCallInv(v, op); }
  }
}
