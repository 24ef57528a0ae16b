/** What each call leaves alone. */
module VaultFrames {
  import opened Base
  import opened Accounts
  import opened AccountLaws
  import opened Vault
  import opened VaultInvariant
  import opened StateMachine
  import Ledger
  import StatementLog
  import UsageMeter

  lemma CarryFrame(v: Vault, id: nat, settings: Admin, key: Option<nat>, d: Decision)
    requires id in v.accounts
    ensures var v' := Carry(v, id, settings, key, d).0;
            && v' == v.(accounts := v'.accounts, ledger := v'.ledger, held := v'.held)
            && id in v'.accounts && v'.accounts == v.accounts[id := v'.accounts[id]]
  {
    hide RecordInterval, Credits, Ledger.CreditAll;
    assert v.accounts == v.accounts[id := v.accounts[id]];
  }

  /** A charge touches one account, the ledger and the tokens held. */
  lemma ChargeOneFrame(v: Vault, id: nat, key: Option<nat>, admin: Option<Admin>, cache: Option<Cache>)
    ensures var v' := ChargeOne(v, id, key, admin, cache).vault;
            && v' == v.(accounts := v'.accounts, ledger := v'.ledger, held := v'.held)
            && (id !in v.accounts ==> v'.accounts == v.accounts)
            && (id in v.accounts ==> id in v'.accounts && v'.accounts == v.accounts[id := v'.accounts[id]])
  {
    hide DecideInterval, PartyObstacle, Carry;
    if id in v.accounts {
      var settings := if admin.Some? then admin.value else StoredAdmin(v.cfg);
      CarryFrame(v, id, settings, key, DecideInterval(v.cfg, settings, v.accounts[id], id, v.now, v.ledgerSeq, key));
      assert v.accounts == v.accounts[id := v.accounts[id]];
    }
  }

  lemma {:induction false} BatchRunFrame(v: Vault, ids: seq<nat>, keys: Option<seq<nat>>, admin: Option<Admin>, cache: Option<Cache>, n: nat)
    requires n <= |ids|
    ensures var v' := BatchRun(v, ids, keys, admin, cache, n).vault;
            && v' == v.(accounts := v'.accounts, ledger := v'.ledger, held := v'.held)
            && v'.accounts.Keys == v.accounts.Keys
            && (forall id :: id in v.accounts && id !in ids[..n] ==> v'.accounts[id] == v.accounts[id])
  {
    hide ChargeOne;
    if n > 0 {
      BatchRunFrame(v, ids, keys, admin, cache, n - 1);
      var b := BatchRun(v, ids, keys, admin, cache, n - 1);
      assert ids[..n] == ids[..n - 1] + [ids[n - 1]];
      if !b.trapped {
        ChargeOneFrame(b.vault, ids[n - 1], KeyAt(keys, n - 1), admin, b.cache);
        var c := ChargeOne(b.vault, ids[n - 1], KeyAt(keys, n - 1), admin, b.cache).vault;
        assert c.accounts.Keys == b.vault.accounts.Keys;
      }
    }
  }

  lemma ChargeUsageFrame(v: Vault, id: nat, amount: int, reference: string)
    ensures var v' := KeptFirst(v, ChargeUsage(v, id, amount, reference));
            && v' == v.(accounts := v'.accounts, ledger := v'.ledger)
            && (id !in v.accounts ==> v'.accounts == v.accounts)
            && (id in v.accounts ==> id in v'.accounts && v'.accounts == v.accounts[id := v'.accounts[id]])
  {
    hide DecideUsage, RecordUsage, PartyObstacle, Credits, Ledger.CreditAll;
    if id in v.accounts { assert v.accounts == v.accounts[id := v.accounts[id]]; }
  }

  // ----- Calls that charge nothing -----

  /** The clock, the lifetime of keys and everything charged so far stay. */
  ghost predicate Quiet(v: Vault, v': Vault) {
    && v'.now == v.now && v'.cfg.idemTtl == v.cfg.idemTtl
    && forall id :: id in v.accounts ==> id in v'.accounts && Untouched(v.accounts[id], v'.accounts[id])
  }

  /** Tokens only leave. */
  ghost predicate Pays(v: Vault, v': Vault) { forall t :: Held(v', t) <= Held(v, t) }

  /** Every subscription keeps its merchant. */
  predicate SameMerchants(v: Vault, v': Vault) {
    forall id :: id in v.accounts ==> id in v'.accounts && v'.accounts[id].sub.merchant == v.accounts[id].sub.merchant
  }

  /** Disputes and merchants stay, too. */
  ghost predicate Calm(v: Vault, v': Vault) { Quiet(v, v') && Pays(v, v') && v'.disputes == v.disputes && SameMerchants(v, v') }

  lemma CreateCalm(
    v: Vault, subscriber: nat, merchant: nat, token: nat, amount: int, interval: nat, usageEnabled: bool,
    cap: Option<int>, expiresAt: Option<nat>, expiresAtLedger: Option<nat>, split: Option<seq<(nat, nat)>>,
    proration: bool, limits: Option<UsageMeter.Limits>)
    requires Inv(v)
    ensures Calm(v, KeptFirst(v, CreateSubscription(v, subscriber, merchant, token, amount, interval, usageEnabled, cap, expiresAt, expiresAtLedger, split, proration, limits)))
  {
    hide CheckSplit, EachAccount, DisputesOk, EscrowsOk, CouponsOk, LedgerOk, ConfigOk;
    assert v.nextSub !in v.accounts;
  }

  lemma SplitCalm(v: Vault, caller: nat, id: nat, payees: Option<seq<(nat, nat)>>)
    ensures Calm(v, Kept(v, UpdateSplit(v, caller, id, payees)))
  {
    hide CheckSplit, EffectiveSub;
  }

  lemma ScheduleCancelCalm(v: Vault, caller: nat, id: nat, cancelAt: nat)
    ensures Calm(v, Kept(v, ScheduleCancel(v, caller, id, cancelAt)))
  {
    hide IsExpired, EffectiveSub;
    if id in v.accounts { EffectiveHarmless(v, id); }
  }

  lemma StatusCalm(v: Vault, id: nat, next: Status)
    ensures Calm(v, Kept(v, ChangeStatus(v, id, next)))
  {
    hide EffectiveSub;
    if id in v.accounts { EffectiveHarmless(v, id); }
  }

  lemma CompactionCalm(v: Vault, id: nat, keepRecent: nat)
    requires Inv(v)
    ensures Calm(v, KeptFirst(v, CompactStatements(v, id, keepRecent)))
  {
    hide Inv, AccountInv, StatementLog.Compact;
    if id in v.accounts {
      Known(v, id);
      CompactionKeepsInv(v.accounts[id], v.now, keepRecent);
    }
  }

  lemma DepositQuiet(v: Vault, id: nat, amount: int)
    ensures var v' := Kept(v, Deposit(v, id, amount));
            && Quiet(v, v') && SameMerchants(v, v') && v'.disputes == v.disputes
            && forall t :: Held(v, t) <= I128_MAX ==> Held(v', t) <= I128_MAX
  {
    hide IsExpired, IsPaused, OnVacation, EffectiveSub;
    if id in v.accounts { EffectiveHarmless(v, id); }
  }

  lemma UnscheduleCalm(v: Vault, caller: nat, id: nat)
    ensures Calm(v, Kept(v, UnscheduleCancel(v, caller, id)))
  {
    hide EffectiveSub;
    if id in v.accounts { EffectiveHarmless(v, id); }
  }

  lemma RenewalCalm(v: Vault, caller: nat, id: nat, enabled: bool)
    ensures Calm(v, Kept(v, SetAutoRenew(v, caller, id, enabled)))
  {
    hide IsExpired, EffectiveSub, InRenewalWindow;
    if id in v.accounts { EffectiveHarmless(v, id); }
  }

  lemma CancelCalm(v: Vault, caller: nat, id: nat)
    ensures Calm(v, Kept(v, Cancel(v, caller, id)))
  {
    hide IsExpired, CanTransition, Unlist, EffectiveSub;
    if id in v.accounts { EffectiveHarmless(v, id); }
  }

  lemma WithdrawalCalm(v: Vault, caller: nat, id: nat)
    ensures Calm(v, Kept(v, WithdrawSubscriber(v, caller, id)))
  {
    hide IsExpired, EffectiveSub;
    if id in v.accounts { EffectiveHarmless(v, id); }
  }

  lemma CouponCalm(v: Vault, code: nat, c: Coupon)
    ensures Calm(v, Kept(v, CreateCoupon(v, code, c)))
    ensures Calm(v, Kept(v, RevokeCoupon(v, code)))
  {
    assert Kept(v, CreateCoupon(v, code, c)) == v.(cfg := Kept(v, CreateCoupon(v, code, c)).cfg);
    assert Kept(v, RevokeCoupon(v, code)) == v.(cfg := Kept(v, RevokeCoupon(v, code)).cfg);
  }

  lemma ApplyCouponCalm(v: Vault, caller: nat, id: nat, code: nat)
    ensures Calm(v, Kept(v, ApplyCoupon(v, caller, id, code)))
  {
    hide Redemptions;
  }

  lemma ClaimCalm(v: Vault, caller: nat, id: nat)
    requires Inv(v)
    ensures Calm(v, Kept(v, ClaimEscrow(v, caller, id)))
  {
    hide AccountsOk, DisputesOk, LedgerOk, ConfigOk, CouponsOk;
  }

  lemma PayoutCalm(v: Vault, merchant: nat, token: nat, amount: int)
    ensures Calm(v, Kept(v, WithdrawMerchant(v, merchant, token, amount)))
    ensures Calm(v, Kept(v, MerchantRefund(v, merchant, token, amount)))
  {
    hide Ledger.BalanceOf, Ledger.EarningsOf, Ledger.SetBalance;
  }

  lemma ScheduleCalm(v: Vault, merchant: nat, cadence: nat, minPayout: int)
    ensures Calm(v, Kept(v, SetSchedule(v, merchant, cadence, minPayout)))
  {}

  lemma MerchantConfigCalm(v: Vault, merchant: nat, feeBips: int, operations: int, paused: bool)
    ensures Calm(v, Kept(v, InitializeMerchant(v, merchant, feeBips, operations)))
    ensures Calm(v, Kept(v, SetMerchantConfig(v, merchant, feeBips, operations, paused)))
  {
    hide Calm, Configured, CheckMerchantConfig;
    ConfiguredCalm(v, merchant, false);
    ConfiguredCalm(v, merchant, paused);
    SameCalm(v);
  }

  lemma ConfiguredCalm(v: Vault, merchant: nat, paused: bool)
    ensures Calm(v, Configured(v, merchant, paused))
  {
    hide Stores;
  }

  lemma SameCalm(v: Vault)
    ensures Calm(v, v)
  {
    hide Stores;
  }

  lemma RotateCalm(v: Vault, oldAddr: nat, newAddr: nat)
    ensures var v' := Kept(v, RotateMerchant(v, oldAddr, newAddr)); Quiet(v, v') && Pays(v, v') && v'.disputes == v.disputes
  {
    hide MoveTokens, MoveList, MoveKey;
  }

  lemma {:induction false} FlushTokensCalm(v: Vault, merchant: nat, tokens: seq<nat>, minPayout: int, n: nat)
    requires n <= |tokens|
    ensures var v' := KeptFirst(v, FlushTokens(v, merchant, tokens, minPayout, n)); Pays(v, v') && v' == v.(ledger := v'.ledger, held := v'.held)
  {
    if n > 0 { FlushTokensCalm(v, merchant, tokens, minPayout, n - 1); }
  }

  lemma FlushCalm(v: Vault, merchant: nat)
    ensures Calm(v, KeptFirst(v, FlushPayouts(v, merchant)))
  {
    hide FlushTokens;
    var tokens := Ledger.TokensOf(v.ledger, merchant);
    FlushTokensCalm(v, merchant, tokens, ScheduleOf(v, merchant).minPayout, |tokens|);
  }

  /** Dispute calls use up at most one id. */
  ghost predicate OpensAtMost(v: Vault, v': Vault, n: nat) {
    Quiet(v, v') && SameMerchants(v, v') && Pays(v, v') && v'.disputes.nextId <= v.disputes.nextId + n
  }

  lemma OpenDisputeQuiet(v: Vault, caller: nat, id: nat, amount: int)
    ensures OpensAtMost(v, KeptFirst(v, OpenDispute(v, caller, id, amount)), 1)
  {
    hide Ledger.BalanceOf, Ledger.SetBalance;
  }

  lemma RespondQuiet(v: Vault, id: nat)
    ensures OpensAtMost(v, Kept(v, RespondDispute(v, id)), 0)
  {}

  lemma LodgeQuiet(v: Vault, caller: nat, id: nat)
    ensures OpensAtMost(v, KeptFirst(v, LodgeEscrowDispute(v, caller, id)), 1)
  {}

  lemma ResolveQuiet(v: Vault, disputeId: nat, toSubscriber: bool)
    ensures OpensAtMost(v, Kept(v, ResolveDispute(v, disputeId, toSubscriber)), 0)
  {
    hide Resolution, Ledger.BalanceOf, Ledger.SetBalance;
  }

  // ----- Charges -----

  /** Charges leave clock, key lifetime and disputes alone, and tokens only leave. */
  ghost predicate Charges(v: Vault, v': Vault) {
    v'.now == v.now && v'.cfg.idemTtl == v.cfg.idemTtl && v'.disputes == v.disputes && Pays(v, v')
  }

  lemma ChargeOnePays(v: Vault, id: nat, key: Option<nat>, admin: Option<Admin>, cache: Option<Cache>)
    ensures Pays(v, ChargeOne(v, id, key, admin, cache).vault)
  {
    hide DecideInterval, RecordInterval, PartyObstacle, Credits, Ledger.CreditAll;
  }

  lemma {:induction false} BatchRunPays(v: Vault, ids: seq<nat>, keys: Option<seq<nat>>, admin: Option<Admin>, cache: Option<Cache>, n: nat)
    requires n <= |ids|
    ensures Pays(v, BatchRun(v, ids, keys, admin, cache, n).vault)
  {
    hide ChargeOne, Held;
    if n > 0 {
      BatchRunPays(v, ids, keys, admin, cache, n - 1);
      var b := BatchRun(v, ids, keys, admin, cache, n - 1);
      if !b.trapped { ChargeOnePays(b.vault, ids[n - 1], KeyAt(keys, n - 1), admin, b.cache); }
    }
  }

  lemma ChargeCharges(v: Vault, id: nat, key: Option<nat>)
    ensures Charges(v, KeptFirst(v, ChargeSubscription(v, id, key)))
  {
    hide ChargeOne;
    ChargeOneFrame(v, id, key, None, None);
    ChargeOnePays(v, id, key, None, None);
  }

  lemma BatchCharges(v: Vault, ids: seq<nat>, keys: Option<seq<nat>>)
    ensures Charges(v, KeptFirst(v, BatchCharge(v, ids, keys)))
  {
    hide BatchRun, HasDuplicate;
    BatchRunFrame(v, ids, keys, ReadAdmin(v.cfg), Some(map[]), |ids|);
    BatchRunPays(v, ids, keys, ReadAdmin(v.cfg), Some(map[]), |ids|);
  }

  lemma UsageCharges(v: Vault, id: nat, amount: int, reference: string)
    ensures Charges(v, KeptFirst(v, ChargeUsage(v, id, amount, reference)))
  {
    hide ChargeUsage;
    ChargeUsageFrame(v, id, amount, reference);
  }

  // ----- Every call -----

  lemma ChargeFrame(v: Vault, op: Op)
    requires IsCharge(op)
    ensures Charges(v, ChargeStep(v, op))
  {
    hide Charges, Kept, KeptFirst, BatchCharge, ChargeSubscription, ChargeUsage;
    match op {
      case Charge(id, key) => ChargeCharges(v, id, key);
      case Batch(ids, keys) => BatchCharges(v, ids, keys);
      case MeteredCharge(id, amount, reference) => UsageCharges(v, id, amount, reference);
    }
  }

  lemma MerchantFrame(v: Vault, op: Op)
    requires IsMerchantCall(op)
    ensures var v' := MerchantStep(v, op);
            && Quiet(v, v') && Pays(v, v') && v'.disputes == v.disputes
            && (!op.Rotate? ==> SameMerchants(v, v'))
  {
    hide Quiet, Pays, SameMerchants, Kept, KeptFirst, InitializeMerchant, SetMerchantConfig, SetSchedule, WithdrawMerchant, MerchantRefund, FlushPayouts, RotateMerchant;
    match op {
      case NewMerchant(m, feeBips, operations) => MerchantConfigCalm(v, m, feeBips, operations, false);
      case MerchantSettings(m, feeBips, operations, paused) => MerchantConfigCalm(v, m, feeBips, operations, paused);
      case PayoutSchedule(m, cadence, min) => ScheduleCalm(v, m, cadence, min);
      case MerchantWithdrawal(m, token, amount) => PayoutCalm(v, m, token, amount);
      case RefundByMerchant(m, token, amount) => PayoutCalm(v, m, token, amount);
      case Flush(m) => FlushCalm(v, m);
      case Rotate(oldAddr, newAddr) => RotateCalm(v, oldAddr, newAddr);
    }
  }

  lemma DisputeFrame(v: Vault, op: Op)
    requires IsDisputeCall(op)
    ensures OpensAtMost(v, DisputeStep(v, op), if op.RaiseDispute? || op.Lodge? then 1 else 0)
  {
    hide OpensAtMost, Kept, KeptFirst, OpenDispute, RespondDispute, ResolveDispute, LodgeEscrowDispute;
    match op {
      case RaiseDispute(caller, id, amount) => OpenDisputeQuiet(v, caller, id, amount);
      case Respond(d) => RespondQuiet(v, d);
      case Resolve(d, toSubscriber) => ResolveQuiet(v, d, toSubscriber);
      case Lodge(caller, id) => LodgeQuiet(v, caller, id);
    }
  }

  lemma CouponFrame(v: Vault, op: Op)
    requires IsCouponCall(op)
    ensures Calm(v, CouponStep(v, op))
  {
    hide Calm, Kept, CreateCoupon, RevokeCoupon, ApplyCoupon;
    match op {
      case NewCoupon(code, c) => CouponCalm(v, code, c);
      case EndCoupon(code) => CouponCalm(v, code, Coupon(0, 0, 0, 0, 0, false));
      case BindCoupon(caller, id, code) => ApplyCouponCalm(v, caller, id, code);
    }
  }

  lemma SubscriptionFrame(v: Vault, op: Op)
    requires Inv(v) && IsSubscriptionCall(op) && !op.DoDeposit?
    ensures Calm(v, SubscriptionStep(v, op))
  {
    hide Inv, Calm, Kept, KeptFirst, CreateSubscription, UpdateSplit, Deposit, CompactStatements, ScheduleCancel, UnscheduleCancel, SetAutoRenew, Cancel, ChangeStatus, WithdrawSubscriber, ClaimEscrow;
    match op {
      case Create(subscriber, merchant, token, amount, interval, usage, cap, exp, expLedger, split, proration, limits) =>
        CreateCalm(v, subscriber, merchant, token, amount, interval, usage, cap, exp, expLedger, split, proration, limits);
      case SetSplit(caller, id, payees) => SplitCalm(v, caller, id, payees);
      case Compaction(id, keepRecent) => CompactionCalm(v, id, keepRecent);
      case ScheduleCancellation(caller, id, at) => ScheduleCancelCalm(v, caller, id, at);
      case UnscheduleCancellation(caller, id) => UnscheduleCalm(v, caller, id);
      case ToggleRenewal(caller, id, enabled) => RenewalCalm(v, caller, id, enabled);
      case CancelNow(caller, id) => CancelCalm(v, caller, id);
      case SetStatus(id, next) => StatusCalm(v, id, next);
      case SubscriberWithdrawal(caller, id) => WithdrawalCalm(v, caller, id);
      case Claim(caller, id) => ClaimCalm(v, caller, id);
    }
  }

  lemma SettingFrame(v: Vault, op: Op)
    requires IsSetting(op) && v.now <= U64_MAX
    ensures var v' := SettingStep(v, op); v'.disputes == v.disputes && v'.held == v.held && v'.accounts == v.accounts && v.now <= v'.now
    ensures op.Reconfigure? ==> SettingStep(v, op).now == v.now && SettingStep(v, op).cfg.idemTtl in {v.cfg.idemTtl, op.cfg.idemTtl}
    ensures op.Tick? ==> SettingStep(v, op).cfg == v.cfg
  {
    hide FeesAllowed;
  }

  lemma DepositFrame(v: Vault, op: Op)
    requires op.DoDeposit?
    ensures var v' := SubscriptionStep(v, op);
            && Quiet(v, v') && SameMerchants(v, v') && v'.disputes == v.disputes
            && forall t :: Held(v, t) <= I128_MAX ==> Held(v', t) <= I128_MAX
  {
    hide Quiet, Held, Kept, Deposit;
    DepositQuiet(v, op.id, op.amount);
  }

  /** What is common to all calls. */
  lemma StepFrame(v: Vault, op: Op)
    requires Inv(v)
    ensures var v' := Step(v, op);
            && (IsCharge(op) ==> Charges(v, v'))
            && (!IsCharge(op) && !IsSetting(op) ==> Quiet(v, v'))
            && (!IsCharge(op) && !op.Rotate? ==> SameMerchants(v, v'))
            && (!IsSetting(op) && !op.DoDeposit? ==> Pays(v, v'))
            && (op.DoDeposit? ==> forall t :: Held(v, t) <= I128_MAX ==> Held(v', t) <= I128_MAX)
            && (IsSetting(op) ==> v'.held == v.held && v'.accounts == v.accounts)
            && (!IsDisputeCall(op) ==> v'.disputes == v.disputes)
            && v'.disputes.nextId <= v.disputes.nextId + (if op.RaiseDispute? || op.Lodge? then 1 else 0)
            && v.now <= v'.now
            && (op.Reconfigure? || v'.cfg.idemTtl == v.cfg.idemTtl)
            && (op.Reconfigure? ==> v'.cfg.idemTtl in {v.cfg.idemTtl, op.cfg.idemTtl})
  {
    hide AccountsOk, DisputesOk, EscrowsOk, CouponsOk, LedgerOk, ConfigOk, Pays, Held, ChargeStep, SettingStep, DisputeStep, MerchantStep, CouponStep, SubscriptionStep;
    ClockOk(v);
    if IsCharge(op) { ChargeFrame(v, op); }
    else if IsSetting(op) { SettingFrame(v, op); }
    else if IsDisputeCall(op) { DisputeFrame(v, op); }
    else if IsMerchantCall(op) { MerchantFrame(v, op); }
    else if IsCouponCall(op) { CouponFrame(v, op); }
    else if op.DoDeposit? { DepositFrame(v, op); }
    else { SubscriptionFrame(v, op); }
  }

  lemma ClockOk(v: Vault)
    requires Inv(v)
    ensures v.now <= U64_MAX
  {}
}
